/**
 * The two JavaScript built-ins the dispatcher uses on strings and arrays:
 * `slice(start, end)` with its relative (possibly negative) indices, and
 * `replaceAll` with a one-character pattern and an empty replacement.
 */
module JsText {

  /**
   * The position a relative index `i` denotes in a sequence of length `len`:
   * a negative index counts back from the end, and the result is clamped to
   * `0 .. len`.
   */
  function RelativeIndex(i: int, len: nat): (r: nat)
    ensures r <= len
    ensures 0 <= i <= len ==> r == i
    ensures i < 0 && 0 <= len + i ==> r == len + i
    ensures i > len ==> r == len
    ensures len + i < 0 ==> r == 0
  {
    if i < 0 then (if len + i < 0 then 0 else len + i)
    else if i > len then len
    else i
  }

  /**
   * `s.slice(start, end)`: the run of `s` between the two relative indices,
   * empty when the end lies at or before the start.
   */
  function Slice<T>(s: seq<T>, start: int, end: int): (r: seq<T>)
    ensures |r| <= |s|
    ensures RelativeIndex(start, |s|) + |r| <= |s|
    ensures |r| == if RelativeIndex(start, |s|) < RelativeIndex(end, |s|)
      then RelativeIndex(end, |s|) - RelativeIndex(start, |s|) else 0
    ensures forall k :: 0 <= k < |r| ==> r[k] == s[RelativeIndex(start, |s|) + k]
  {
    var b, e := RelativeIndex(start, |s|), RelativeIndex(end, |s|);
    if b < e then s[b..e] else []
  }

  /** `s.slice(1)`: everything but the first element, in order. */
  lemma SliceFromOne<T>(s: seq<T>)
    ensures s != [] ==> Slice(s, 1, |s|) == s[1..]
    ensures s == [] ==> Slice(s, 1, |s|) == []
  {
  }

  /**
   * `s.slice(2, -2)` drops two elements at each end; a sequence shorter than
   * four elements gives the empty sequence.
   */
  lemma SliceInner<T>(s: seq<T>)
    ensures |s| >= 4 ==> s == s[..2] + Slice(s, 2, -2) + s[|s| - 2..]
    ensures |s| < 4 ==> Slice(s, 2, -2) == []
  {
  }

  /** `s.replaceAll(c, "")` for a one-character pattern `c`: every `c` deleted. */
  function RemoveAll(s: string, c: char): (r: string)
    ensures c !in r
    ensures |r| <= |s|
    ensures forall x :: x != c ==> multiset(r)[x] == multiset(s)[x]
  {
    if s == [] then []
    else
      assert s == [s[0]] + s[1..];
      if s[0] == c then RemoveAll(s[1..], c)
      else [s[0]] + RemoveAll(s[1..], c)
  }

  /** Deleting distributes over concatenation, so the kept characters stay in order. */
  lemma {:induction false} RemoveAllAppend(a: string, b: string, c: char)
    ensures RemoveAll(a + b, c) == RemoveAll(a, c) + RemoveAll(b, c)
  {
    if a != [] {
      assert (a + b)[1..] == a[1..] + b;
      RemoveAllAppend(a[1..], b, c);
    } else {
      assert a + b == b;
    }
  }

  /** A leading `c` is dropped. */
  lemma RemoveAllLeading(rest: string, c: char)
    ensures RemoveAll([c] + rest, c) == RemoveAll(rest, c)
  {
  }

  /** A string without `c` is left as it is. */
  lemma {:induction false} RemoveAllAbsent(s: string, c: char)
    requires c !in s
    ensures RemoveAll(s, c) == s
  {
    if s != [] {
      RemoveAllAbsent(s[1..], c);
    }
  }

  /** Deleting twice is deleting once. */
  lemma RemoveAllIdempotent(s: string, c: char)
    ensures RemoveAll(RemoveAll(s, c), c) == RemoveAll(s, c)
  {
  }
}
