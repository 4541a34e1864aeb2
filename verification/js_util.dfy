/**
 * The array and string helpers of the JavaScript runtime and of the
 * utilities module that the protocol code leans on: `slice` with its
 * clamping, `split`/`join` on a separator, `PadRight`, `XOR` and `median`.
 */
module JsUtil {
  import opened Wrappers

  type Bytes = seq<bv8>

  function Min(a: int, b: int): int { if a <= b then a else b }

  // ---------------------------------------------------------------------------
  // Slicing

  /** `b.slice(0, n)`: the first n elements, or all of them when there are fewer. */
  function Take<T>(b: seq<T>, n: nat): (r: seq<T>)
    ensures |r| == Min(n, |b|)
    ensures r <= b
  {
    b[..Min(n, |b|)]
  }

  /** `b.slice(-n)` for n > 0: the last n elements, or all of them when there are fewer. */
  function TakeLast<T>(b: seq<T>, n: nat): (r: seq<T>)
    ensures |r| == Min(n, |b|)
    ensures forall i :: 0 <= i < |r| ==> r[i] == b[|b| - |r| + i]
  {
    if |b| <= n then b else b[|b| - n..]
  }

  lemma TakeTakeLast<T>(a: seq<T>, b: seq<T>)
    ensures Take(a + b, |a|) == a && TakeLast(a + b, |b|) == b
  {
  }

  // ---------------------------------------------------------------------------
  // Padding and exclusive or

  /** `PadRight(b, n)`: b followed by zero bytes up to length n; longer input is kept whole. */
  function PadRight(b: Bytes, n: nat): (r: Bytes)
    ensures |r| == if |b| < n then n else |b|
    ensures r[..|b|] == b
    ensures forall i :: |b| <= i < |r| ==> r[i] == 0
  {
    if |b| < n then b + seq(n - |b|, _ => 0) else b
  }

  /** `XOR(a, b)`: byte-wise exclusive or over the common length. */
  function Xor(a: Bytes, b: Bytes): (r: Bytes)
    ensures |r| == Min(|a|, |b|)
    ensures forall i :: 0 <= i < |r| ==> r[i] == a[i] ^ b[i]
  {
    seq(Min(|a|, |b|), i requires 0 <= i < Min(|a|, |b|) => a[i] ^ b[i])
  }

  /** Masking twice with the same mask gives back the data. */
  lemma XorTwice(a: Bytes, m: Bytes)
    requires |a| <= |m|
    ensures Xor(Xor(a, m), m) == a
  {
    var x := Xor(a, m);
    forall i | 0 <= i < |a|
      ensures Xor(x, m)[i] == a[i]
    {
      assert x[i] ^ m[i] == (a[i] ^ m[i]) ^ m[i] == a[i];
    }
  }

  // ---------------------------------------------------------------------------
  // String.prototype.split and Array.prototype.join on a one-character separator

  /** `s.split(sep)`: every piece between separators, empty pieces included. */
  function Split(s: string, sep: char): (r: seq<string>)
    ensures |r| >= 1
  {
    if |s| == 0 then [""] else Prepend(s[0], sep, Split(s[1..], sep))
  }

  /** `parts.join(sep)` */
  function Join(parts: seq<string>, sep: char): string
  {
    if |parts| == 0 then ""
    else if |parts| == 1 then parts[0]
    else parts[0] + [sep] + Join(parts[1..], sep)
  }

  /** No piece of a split contains the separator, and joining the pieces gives the string back. */
  lemma {:induction false} SplitThenJoin(s: string, sep: char)
    ensures Join(Split(s, sep), sep) == s
    ensures forall k :: 0 <= k < |Split(s, sep)| ==> sep !in Split(s, sep)[k]
  {
    if |s| > 0 {
      SplitThenJoin(s[1..], sep);
      var rest := Split(s[1..], sep);
      if s[0] != sep {
        if |rest| > 1 {
          assert rest == [rest[0]] + rest[1..];
        }
      } else {
        assert s == [sep] + s[1..];
      }
    }
  }

  /** Splitting a string without the separator gives that string alone. */
  lemma {:induction false} SplitWithoutSeparator(s: string, sep: char)
    requires sep !in s
    ensures Split(s, sep) == [s]
  {
    if |s| > 0 {
      SplitWithoutSeparator(s[1..], sep);
      assert [s[0]] + s[1..] == s;
    }
  }

  /** Splitting at a separator between a and b splits a and b apart. */
  lemma {:induction false} SplitAround(a: string, b: string, sep: char)
    ensures Split(a + [sep] + b, sep) == Split(a, sep) + Split(b, sep)
  {
    var s := a + [sep] + b;
    if |a| == 0 {
      assert s == [sep] + b;
      SplitFirst(s, sep, b);
    } else {
      var t := a[1..] + [sep] + b;
      assert s == [a[0]] + t;
      SplitAround(a[1..], b, sep);
      SplitFirst(s, sep, t);
      SplitFirst(a, sep, a[1..]);
      ConsPieces(a[0], sep, Split(a[1..], sep), Split(b, sep));
    }
  }

  /** One step of Split: the first character either ends the first piece or joins it. */
  lemma SplitFirst(s: string, sep: char, t: string)
    requires |s| > 0 && t == s[1..]
    ensures Split(s, sep) == Prepend(s[0], sep, Split(t, sep))
  {
  }

  /** Adding a character in front of a split: a new empty piece, or a longer first piece. */
  function Prepend(c: char, sep: char, pieces: seq<string>): seq<string>
    requires |pieces| >= 1
  {
    if c == sep then [""] + pieces else [[c] + pieces[0]] + pieces[1..]
  }

  lemma ConsPieces(c: char, sep: char, left: seq<string>, right: seq<string>)
    requires |left| >= 1
    ensures Prepend(c, sep, left + right) == Prepend(c, sep, left) + right
  {
    if c != sep {
      assert (left + right)[1..] == left[1..] + right;
    }
  }

  /** Splitting the join of separator-free pieces gives the pieces back. */
  lemma {:induction false} JoinThenSplit(parts: seq<string>, sep: char)
    requires |parts| >= 1
    requires forall k :: 0 <= k < |parts| ==> sep !in parts[k]
    ensures Split(Join(parts, sep), sep) == parts
  {
    if |parts| == 1 {
      SplitWithoutSeparator(parts[0], sep);
    } else {
      JoinThenSplit(parts[1..], sep);
      SplitAround(parts[0], Join(parts[1..], sep), sep);
      SplitWithoutSeparator(parts[0], sep);
      assert [parts[0]] + parts[1..] == parts;
    }
  }

  // ---------------------------------------------------------------------------
  // Sorting and the median

  predicate Sorted(s: seq<int>)
  {
    forall i, j :: 0 <= i < j < |s| ==> s[i] <= s[j]
  }

  function Insert(x: int, s: seq<int>): (r: seq<int>)
    requires Sorted(s)
    ensures Sorted(r) && multiset(r) == multiset(s) + multiset{x}
    ensures |r| == |s| + 1 && (r[0] == x || (|s| > 0 && r[0] == s[0]))
  {
    if |s| == 0 then [x]
    else if x <= s[0] then [x] + s
    else
      var t := Insert(x, s[1..]);
      assert s == [s[0]] + s[1..];
      assert s[0] <= t[0];
      [s[0]] + t
  }

  /** The ascending order of a list of integers. */
  function Sort(s: seq<int>): (r: seq<int>)
    ensures Sorted(r) && multiset(r) == multiset(s)
  {
    if |s| == 0 then []
    else
      assert s == [s[0]] + s[1..];
      Insert(s[0], Sort(s[1..]))
  }

  lemma SortedHeadsEqual(a: seq<int>, b: seq<int>)
    requires Sorted(a) && Sorted(b) && multiset(a) == multiset(b) && |a| > 0
    ensures |b| > 0 && a[0] == b[0]
  {
    assert |a| == |multiset(a)| == |multiset(b)| == |b|;
    assert a[0] in multiset(a) && b[0] in multiset(b);
    var j :| 0 <= j < |b| && b[j] == a[0];
    var i :| 0 <= i < |a| && a[i] == b[0];
  }

  lemma TailMultiset(a: seq<int>)
    requires |a| > 0
    ensures multiset(a[1..]) == multiset(a) - multiset{a[0]}
  {
    assert a == [a[0]] + a[1..];
  }

  lemma SortedTail(a: seq<int>)
    requires Sorted(a) && |a| > 0
    ensures Sorted(a[1..])
  {
  }

  /** A sorted list is determined by its elements. */
  lemma {:induction false} SortedUnique(a: seq<int>, b: seq<int>)
    requires Sorted(a) && Sorted(b) && multiset(a) == multiset(b)
    ensures a == b
  {
    if |a| > 0 {
      SortedHeadsEqual(a, b);
      TailMultiset(a);
      TailMultiset(b);
      SortedTail(a);
      SortedTail(b);
      SortedUnique(a[1..], b[1..]);
      assert a == [a[0]] + a[1..];
      assert b == [b[0]] + b[1..];
    } else {
      assert |b| == |multiset(b)| == 0;
    }
  }

  /**
   * `median(xs)`: the middle element of the sorted list, or the mean of the
   * two middle ones (rounded toward zero) for an even length; None for [].
   */
  function Median(xs: seq<int>): Option<int>
  {
    MedianOfSorted(Sort(xs))
  }

  /** `median(ts)` where a missing median makes later arithmetic throw. */
  function MedianTime(ts: seq<int>): (r: Result<int>)
    ensures r.Success? <==> |ts| > 0
    ensures r.Success? ==> Median(ts) == Some(r.value)
  {
    match Median(ts)
    case None => Failure(UndefinedValue)
    case Some(t) => Success(t)
  }

  /** The middle of an already sorted list. */
  function MedianOfSorted(s: seq<int>): Option<int>
  {
    if |s| == 0 then None
    else
      var mid := |s| / 2;
      if |s| % 2 == 1 then Some(s[mid]) else Some(TruncDiv(s[mid - 1] + s[mid], 2))
  }

  /** BigInt division, which rounds toward zero. */
  function TruncDiv(a: int, b: int): int
    requires b > 0
  {
    if a >= 0 then a / b else -((-a) / b)
  }

  /** Two orderings of the same elements sort to the same list. */
  lemma SortPermutation(xs: seq<int>, ys: seq<int>)
    requires multiset(xs) == multiset(ys)
    ensures Sort(xs) == Sort(ys)
  {
    SortedUnique(Sort(xs), Sort(ys));
  }

  /** The median depends only on the elements, not on the order they arrived in. */
  lemma MedianOrderIndependent(xs: seq<int>, ys: seq<int>)
    requires multiset(xs) == multiset(ys)
    ensures Median(xs) == Median(ys)
  {
    SortPermutation(xs, ys);
  }

  /** The median of a non-empty list lies between its least and its greatest element. */
  lemma MedianBetween(xs: seq<int>)
    requires |xs| > 0
    ensures Median(xs).Some?
    ensures exists i :: 0 <= i < |xs| && xs[i] <= Median(xs).value
    ensures exists j :: 0 <= j < |xs| && Median(xs).value <= xs[j]
  {
    var s := Sort(xs);
    var mid := |s| / 2;
    assert |s| == |multiset(s)| == |xs|;
    assert Median(xs) == MedianOfSorted(s);
    var lo := if |s| % 2 == 1 then mid else mid - 1;
    assert s[lo] <= Median(xs).value <= s[mid];
    assert s[lo] in multiset(xs) && s[mid] in multiset(xs) by {
      assert s[lo] in multiset(s) && s[mid] in multiset(s);
    }
    var i :| 0 <= i < |xs| && xs[i] == s[lo];
    var j :| 0 <= j < |xs| && xs[j] == s[mid];
  }

  /** For an odd number of values the median is one of them. */
  lemma MedianOddIsElement(xs: seq<int>)
    requires |xs| % 2 == 1
    ensures Median(xs).Some? && Median(xs).value in xs
  {
    var s := Sort(xs);
    assert |s| == |multiset(s)| == |xs|;
    assert s[|s| / 2] in multiset(s);
  }
}
