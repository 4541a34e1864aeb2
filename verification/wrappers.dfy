/** Option and Result, used for JavaScript's null/undefined and for thrown errors. */
module Wrappers {

  datatype Option<+T> = None | Some(value: T)

  /** An error the modelled code throws or a promise it awaits rejects with. */
  datatype Error =
    | Thrown(message: string)      // `throw new Error(message)` in the modelled code
    | Unavailable(reason: string)  // a remote call rejected and Promise.all propagated it
    | DecryptFailed                // AES-GCM refused the key or the ciphertext
    | Malformed                    // JSON.parse or Point.fromB64 refused a payload
    | NotInvertible                // mod_inv on a value that shares a factor with the modulus
    | EmptyReduce                  // Array.prototype.reduce on [] without an initial value
    | UndefinedValue               // a TypeError from reading or using undefined/null

  datatype Result<+T> = Success(value: T) | Failure(error: Error) {
    predicate IsFailure() { Failure? }

    function PropagateFailure<U>(): Result<U>
      requires Failure?
    {
      Failure(error)
    }

    function Extract(): T
      requires Success?
    {
      value
    }
  }

  /**
   * `Promise.all` over settled calls, or a `map` whose callback may throw:
   * every value in order, or else the failure of the first call (by index)
   * that failed.
   */
  function All<T>(rs: seq<Result<T>>): (r: Result<seq<T>>)
    ensures r.Success? <==> forall i :: 0 <= i < |rs| ==> rs[i].Success?
    ensures r.Success? ==> |r.value| == |rs| && forall i :: 0 <= i < |rs| ==> rs[i] == Success(r.value[i])
    ensures r.Failure? ==>
      exists i :: 0 <= i < |rs| && rs[i] == Failure(r.error) && forall j :: 0 <= j < i ==> rs[j].Success?
  {
    if |rs| == 0 then Success([])
    else
      var n := |rs| - 1;
      var init := rs[..n];
      assert forall i :: 0 <= i < n ==> init[i] == rs[i];
      match All(init)
      case Failure(e) => Failure(e)
      case Success(vs) =>
        match rs[n]
        case Failure(e) => Failure(e)
        case Success(v) => Success(vs + [v])
  }

  /** When every step succeeded, `All` yields their values in order. */
  lemma AllSucceed<T>(rs: seq<Result<T>>, vs: seq<T>)
    requires |rs| == |vs| && forall i :: 0 <= i < |rs| ==> rs[i] == Success(vs[i])
    ensures All(rs) == Success(vs)
  {
    var r := All(rs);
    assert r.Success?;
    assert r.value == vs;
  }

  /**
   * `values.every(v => v != null) ? values : null`: every value when none is
   * null, else None.
   */
  function Present<T>(os: seq<Option<T>>): (r: Option<seq<T>>)
    ensures r.Some? <==> forall i :: 0 <= i < |os| ==> os[i].Some?
    ensures r.Some? ==> |r.value| == |os| && forall i :: 0 <= i < |os| ==> os[i] == Some(r.value[i])
  {
    if |os| == 0 then Some([])
    else
      var n := |os| - 1;
      var init := os[..n];
      assert forall i :: 0 <= i < n ==> init[i] == os[i];
      match Present(init)
      case None => None
      case Some(vs) =>
        match os[n]
        case None => None
        case Some(v) => Some(vs + [v])
  }
}
