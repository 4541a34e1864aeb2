/**
 * The quorum filter the authentication flows share: call every ork, keep
 * the orks whose call fulfilled in their original order, and give up with
 * a reasoned error when fewer than the threshold answered.
 */
module Quorum {
  import opened Wrappers
  import opened Remote

  /** The rejection reason the orks use for a throttled account. */
  const TooManyAttempts: string := "Too many attempts"

  /** The items whose call fulfilled, in their original order. */
  function Survivors<A, T>(items: seq<A>, settled: seq<Settled<T>>): (s: seq<A>)
    requires |items| == |settled|
    ensures |s| <= |items|
  {
    if |items| == 0 then []
    else
      var n := |items| - 1;
      Survivors(items[..n], settled[..n]) + if settled[n].Fulfilled? then [items[n]] else []
  }

  /** `settled.filter(p => p.status === "fulfilled").map(p => p.value)` */
  function FulfilledValues<T>(settled: seq<Settled<T>>): seq<T>
  {
    if |settled| == 0 then []
    else
      var n := |settled| - 1;
      FulfilledValues(settled[..n]) + if settled[n].Fulfilled? then [settled[n].value] else []
  }

  /** The positions whose call fulfilled, in ascending order. */
  function FulfilledIndices<T>(settled: seq<Settled<T>>): (idx: seq<nat>)
    ensures forall k :: 0 <= k < |idx| ==> idx[k] < |settled| && settled[idx[k]].Fulfilled?
    ensures forall k, l :: 0 <= k < l < |idx| ==> idx[k] < idx[l]
    ensures forall i :: 0 <= i < |settled| && settled[i].Fulfilled? ==> i in idx
  {
    if |settled| == 0 then []
    else
      var n := |settled| - 1;
      var init := FulfilledIndices(settled[..n]);
      init + if settled[n].Fulfilled? then [n] else []
  }

  /**
   * The k-th survivor and the k-th fulfilled value come from the same
   * call: both are at the k-th fulfilled position. A list computed over the
   * survivors (their ids, their coefficients) therefore stays index-aligned
   * with the values.
   */
  lemma {:induction false} SurvivorsAligned<A, T>(items: seq<A>, settled: seq<Settled<T>>)
    requires |items| == |settled|
    ensures var idx := FulfilledIndices(settled);
      && |Survivors(items, settled)| == |idx|
      && |FulfilledValues(settled)| == |idx|
      && forall k :: 0 <= k < |idx| ==>
           Survivors(items, settled)[k] == items[idx[k]] && FulfilledValues(settled)[k] == settled[idx[k]].value
  {
    if |items| > 0 {
      var n := |items| - 1;
      SurvivorsAligned(items[..n], settled[..n]);
    }
  }

  /** Nothing is dropped when every call fulfilled. */
  lemma {:induction false} AllFulfilledKeepsAll<A, T>(items: seq<A>, settled: seq<Settled<T>>)
    requires |items| == |settled|
    requires forall i :: 0 <= i < |settled| ==> settled[i].Fulfilled?
    ensures Survivors(items, settled) == items
  {
    if |items| > 0 {
      var n := |items| - 1;
      AllFulfilledKeepsAll(items[..n], settled[..n]);
      assert items[..n] + [items[n]] == items;
    }
  }

  /**
   * `settledPromises.forEach((promise, i) => { if fulfilled, activeOrks.push(items[i]) })`
   */
  method KeepFulfilled<A, T>(items: seq<A>, settled: seq<Settled<T>>) returns (active: seq<A>)
    requires |items| == |settled|
    ensures active == Survivors(items, settled)
  {
    active := [];
    var i := 0;
    while i < |settled|
      invariant 0 <= i <= |settled|
      invariant active == Survivors(items[..i], settled[..i])
    {
      assert items[..i + 1][..i] == items[..i] && settled[..i + 1][..i] == settled[..i];
      if settled[i].Fulfilled? {
        active := active + [items[i]];
      }
      i := i + 1;
    }
    assert items[..i] == items && settled[..i] == settled;
  }

  /** `activeOrks.length < this.threshold`, where an undefined threshold makes the comparison false. */
  predicate BelowThreshold(n: nat, threshold: Option<nat>)
  {
    threshold.Some? && n < threshold.value
  }

  /**
   * The error thrown when too few orks answered: "Too many attempts" when
   * any call was rejected with exactly that reason, else the flow's own
   * message.
   */
  function ThresholdError<T>(settled: seq<Settled<T>>, down: string): (e: Error)
    ensures (exists i :: 0 <= i < |settled| && settled[i] == Rejected(Unavailable(TooManyAttempts)))
      ==> e == Thrown(TooManyAttempts)
    ensures !(exists i :: 0 <= i < |settled| && settled[i] == Rejected(Unavailable(TooManyAttempts)))
      ==> e == Thrown(down)
  {
    if exists i :: 0 <= i < |settled| && settled[i] == Rejected(Unavailable(TooManyAttempts)) then
      Thrown(TooManyAttempts)
    else Thrown(down)
  }
}
