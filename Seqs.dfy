/**
 * The JavaScript array operations the two cores are written with: `findIndex`,
 * "push unless `includes`", and `indexOf` followed by `splice(i, 1)`.
 */
module Seqs {

  /** No element occurs twice. */
  predicate NoDup<T(==)>(s: seq<T>) {
    forall i, j :: 0 <= i < j < |s| ==> s[i] != s[j]
  }

  /** `Array.prototype.findIndex`: the first index whose element satisfies `p`, or -1. */
  function FindIndex<T>(s: seq<T>, p: T -> bool): (r: int)
    ensures -1 <= r < |s|
    ensures r == -1 <==> forall i :: 0 <= i < |s| ==> !p(s[i])
    ensures 0 <= r ==> p(s[r]) && forall i :: 0 <= i < r ==> !p(s[i])
  {
    if |s| == 0 then -1
    else if p(s[0]) then 0
    else
      var k := FindIndex(s[1..], p);
      assert forall i :: 1 <= i < |s| ==> s[i] == s[1..][i - 1];
      if k == -1 then -1 else k + 1
  }

  /** `Array.prototype.indexOf`, written with `findIndex`. */
  function IndexOf<T(==)>(s: seq<T>, x: T): (r: int)
    ensures -1 <= r < |s|
    ensures r == -1 <==> x !in s
    ensures 0 <= r ==> s[r] == x && x !in s[..r]
  {
    FindIndex(s, y => y == x)
  }

  /** `if (!s.includes(x)) s.push(x)`. */
  function PushAbsent<T(==)>(s: seq<T>, x: T): seq<T> {
    if x in s then s else s + [x]
  }

  /** `const i = s.indexOf(x); if (i > -1) s.splice(i, 1)`. */
  function RemoveFirst<T(==)>(s: seq<T>, x: T): seq<T> {
    var i := IndexOf(s, x);
    if i > -1 then s[..i] + s[i + 1..] else s
  }

  /** After a push-if-absent `x` is present, exactly the elements of `s` and `x` are, and `s` is a prefix. */
  lemma PushAbsentContents<T>(s: seq<T>, x: T)
    ensures x in PushAbsent(s, x)
    ensures forall y :: y in PushAbsent(s, x) <==> y in s || y == x
    ensures PushAbsent(s, x)[..|s|] == s
    ensures |PushAbsent(s, x)| == if x in s then |s| else |s| + 1
  {
  }

  /** Pushing only absent elements keeps a list free of duplicates. */
  lemma PushAbsentNoDup<T>(s: seq<T>, x: T)
    requires NoDup(s)
    ensures NoDup(PushAbsent(s, x))
  {
  }

  /** Pushing the same element twice is the same as pushing it once. */
  lemma PushAbsentIdempotent<T>(s: seq<T>, x: T)
    ensures PushAbsent(PushAbsent(s, x), x) == PushAbsent(s, x)
  {
  }

  /** Removing from a list without duplicates takes out `x` and nothing else, keeping the order of the rest. */
  lemma RemoveFirstContents<T>(s: seq<T>, x: T)
    requires NoDup(s)
    ensures x !in RemoveFirst(s, x)
    ensures forall y :: y in RemoveFirst(s, x) <==> y in s && y != x
    ensures NoDup(RemoveFirst(s, x))
    ensures |RemoveFirst(s, x)| == if x in s then |s| - 1 else |s|
  {
  }

  /** Removing an element that was just pushed onto a list that lacked it gives the list back. */
  lemma RemoveAfterPush<T>(s: seq<T>, x: T)
    requires x !in s
    ensures RemoveFirst(PushAbsent(s, x), x) == s
  {
  }
}
