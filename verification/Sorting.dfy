/** Sorting by a total preorder: what the library sorts used by the program promise. */
module Sorting {

  ghost predicate TotalPreorder<T(!new)>(le: (T, T) -> bool) {
    && (forall a, b :: le(a, b) || le(b, a))
    && (forall a, b, c :: le(a, b) && le(b, c) ==> le(a, c))
  }

  ghost predicate Sorted<T>(s: seq<T>, le: (T, T) -> bool) {
    forall i, j :: 0 <= i < j < |s| ==> le(s[i], s[j])
  }

  /** The position at which x keeps s sorted, after everything it does not precede. */
  method Position<T(!new)>(s: seq<T>, x: T, le: (T, T) -> bool) returns (i: nat)
    requires TotalPreorder(le) && Sorted(s, le)
    ensures i <= |s|
    ensures forall k :: 0 <= k < i ==> le(s[k], x)
    ensures forall k :: i <= k < |s| ==> le(x, s[k])
  {
    i := |s|;
    while i > 0 && !le(s[i - 1], x)
      invariant 0 <= i <= |s|
      invariant forall k :: i <= k < |s| ==> le(x, s[k])
    {
      i := i - 1;
    }
  }

  lemma InsertSorted<T(!new)>(s: seq<T>, x: T, i: nat, le: (T, T) -> bool)
    requires TotalPreorder(le) && Sorted(s, le) && i <= |s|
    requires forall k :: 0 <= k < i ==> le(s[k], x)
    requires forall k :: i <= k < |s| ==> le(x, s[k])
    ensures Sorted(s[..i] + [x] + s[i..], le)
    ensures multiset(s[..i] + [x] + s[i..]) == multiset(s) + multiset{x}
  {
    assert s == s[..i] + s[i..];
  }

  method Sort<T(!new)>(s: seq<T>, le: (T, T) -> bool) returns (r: seq<T>)
    requires TotalPreorder(le)
    ensures Sorted(r, le)
    ensures multiset(r) == multiset(s)
  {
    r := [];
    for k := 0 to |s|
      invariant Sorted(r, le)
      invariant multiset(r) == multiset(s[..k])
    {
      var i := Position(r, s[k], le);
      InsertSorted(r, s[k], i, le);
      assert s[..k + 1] == s[..k] + [s[k]];
      r := r[..i] + [s[k]] + r[i..];
    }
    assert s[..|s|] == s;
  }

  ghost predicate NoRepeats<T>(s: seq<T>) {
    forall i, j :: 0 <= i < j < |s| ==> s[i] != s[j]
  }

  lemma {:induction false} AtMostOnce<T>(s: seq<T>, x: T)
    requires NoRepeats(s)
    ensures multiset(s)[x] <= 1
  {
    if s != [] {
      AtMostOnce(s[1..], x);
      assert s == [s[0]] + s[1..];
      if x == s[0] {
        assert x !in s[1..];
      }
    }
  }

  /** Rearranging keeps the elements and brings in no repetition. */
  lemma PermutationKeepsDistinct<T>(a: seq<T>, b: seq<T>)
    requires multiset(a) == multiset(b) && NoRepeats(a)
    ensures NoRepeats(b)
    ensures forall x :: x in a <==> x in b
  {
    forall x
      ensures x in a <==> x in b
    {
      assert x in multiset(a) <==> x in multiset(b);
    }
    forall i, j | 0 <= i < j < |b|
      ensures b[i] != b[j]
    {
      if b[i] == b[j] {
        assert b == b[..j] + [b[j]] + b[j + 1..];
        assert b[i] == b[..j][i];
        AtMostOnce(a, b[i]);
      }
    }
  }
}
