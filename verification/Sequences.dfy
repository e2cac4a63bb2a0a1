// Lists that lose their first occurrence of an element, as CFArrayGetFirstIndexOfValue followed by
// CFArrayRemoveValueAtIndex does it.
module Sequences {

  // s without its first x
  function Drop<T(==)>(s: seq<T>, x: T): seq<T> {
    if s == [] then []
    else if s[0] == x then s[1..]
    else [s[0]] + Drop(s[1..], x)
  }

  ghost predicate NoDuplicates<T>(s: seq<T>) {
    forall i, j :: 0 <= i < j < |s| ==> s[i] != s[j]
  }

  lemma {:induction false} DropKeepsOthers<T>(s: seq<T>, x: T)
    ensures forall y :: y in Drop(s, x) ==> y in s
    ensures forall y :: y != x && y in s ==> y in Drop(s, x)
  {
    if s != [] && s[0] != x {
      DropKeepsOthers(s[1..], x);
    }
  }

  lemma {:induction false} DropIsRemoval<T>(s: seq<T>, x: T, i: nat)
    requires i <= |s| && forall j :: 0 <= j < i ==> s[j] != x
    ensures i == |s| ==> Drop(s, x) == s
    ensures i < |s| && s[i] == x ==> Drop(s, x) == s[..i] + s[i + 1..]
  {
    if i > 0 {
      DropIsRemoval(s[1..], x, i - 1);
      assert i < |s| ==> s[1..][..i - 1] == s[1..i] && s[1..][i..] == s[i + 1..];
      assert i == |s| ==> s == [s[0]] + s[1..];
      assert i < |s| ==> s[..i] == [s[0]] + s[1..i];
    }
  }

  lemma {:induction false} DropKeepsDistinct<T>(s: seq<T>, x: T)
    requires NoDuplicates(s)
    ensures NoDuplicates(Drop(s, x)) && x !in Drop(s, x)
  {
    if s != [] {
      assert forall i :: 0 <= i < |s[1..]| ==> s[1..][i] == s[i + 1];
      assert s[0] !in s[1..];
      if s[0] != x {
        DropKeepsDistinct(s[1..], x);
        DropKeepsOthers(s[1..], x);
      }
    }
  }

  lemma {:induction false} DropLength<T>(s: seq<T>, x: T)
    ensures |Drop(s, x)| == if x in s then |s| - 1 else |s|
  {
    if s != [] && s[0] != x {
      DropLength(s[1..], x);
    }
  }

  // CFArrayGetFirstIndexOfValue: the position of the first x, or |s|
  function IndexOf<T(==)>(s: seq<T>, x: T): (i: nat)
    ensures i <= |s| && (i < |s| ==> s[i] == x)
    ensures forall j :: 0 <= j < i ==> s[j] != x
  {
    if s == [] || s[0] == x then 0 else 1 + IndexOf(s[1..], x)
  }

  // Removing the value at the first index, if there is one
  function RemoveFirst<T(==)>(s: seq<T>, x: T): (r: seq<T>)
    ensures r == Drop(s, x)
  {
    var i := IndexOf(s, x);
    DropIsRemoval(s, x, i);
    if i < |s| then s[..i] + s[i + 1..] else s
  }
}
