/** Sequence operations of JavaScript arrays used as lists of ids. */
module Seqs {

  /** No value occurs twice. */
  predicate NoDup<T(==,!new)>(s: seq<T>)
  {
    forall i, j :: 0 <= i < j < |s| ==> s[i] != s[j]
  }

  /** The index of the first occurrence (`indexOf`). */
  function FirstIndex<T(==,!new)>(s: seq<T>, x: T): (i: nat)
    requires x in s
    ensures i < |s| && s[i] == x && x !in s[..i]
  {
    if s[0] == x then 0
    else
      var i := FirstIndex(s[1..], x);
      assert s[..i + 1] == [s[0]] + s[1..][..i];
      i + 1
  }

  /** `splice(indexOf(x), 1)`: the first occurrence removed, or nothing when absent. */
  function RemoveFirst<T(==,!new)>(s: seq<T>, x: T): (r: seq<T>)
    ensures x !in s ==> r == s
    ensures x in s ==> |r| == |s| - 1 && multiset(r) == multiset(s) - multiset{x}
  {
    if x in s then
      var i := FirstIndex(s, x);
      assert s == s[..i] + [x] + s[i + 1..];
      s[..i] + s[i + 1..]
    else s
  }

  /** Removing from a duplicate-free list leaves no occurrence of the id. */
  lemma RemoveFirstNoDup<T(!new)>(s: seq<T>, x: T)
    requires NoDup(s)
    ensures x !in RemoveFirst(s, x) && NoDup(RemoveFirst(s, x))
  {
    if x in s {
      var i := FirstIndex(s, x);
      DeleteNoDup(s, i);
    }
  }

  lemma DeleteNoDup<T(!new)>(s: seq<T>, i: nat)
    requires NoDup(s) && i < |s|
    ensures s[i] !in s[..i] + s[i + 1..] && NoDup(s[..i] + s[i + 1..])
  {
    var r := s[..i] + s[i + 1..];
    assert forall k :: 0 <= k < |r| ==> r[k] == if k < i then s[k] else s[k + 1];
    forall a, b | 0 <= a < b < |r| ensures r[a] != r[b] {
      var a' := if a < i then a else a + 1;
      var b' := if b < i then b else b + 1;
      assert a' < b';
    }
  }

  /** A removal undoes an addition. */
  lemma {:induction false} RemoveUndoesAppend<T(!new)>(s: seq<T>, x: T)
    requires x !in s
    ensures RemoveFirst(s + [x], x) == s
  {
    var t := s + [x];
    var i := FirstIndex(t, x);
    assert forall k :: 0 <= k < |s| ==> t[k] == s[k];
    assert i == |s|;
    assert t[..i] == s && t[i + 1..] == [];
  }

  /** `filter(id => id !== x)`. */
  function Without<T(==,!new)>(list: seq<T>, x: T): (r: seq<T>)
    ensures forall y :: y in r <==> y in list && y != x
    ensures |r| == |list| - multiset(list)[x]
  {
    if list == [] then []
    else if list[0] == x then
      assert list == [list[0]] + list[1..];
      Without(list[1..], x)
    else
      assert list == [list[0]] + list[1..];
      [list[0]] + Without(list[1..], x)
  }

  /** The filter keeps the other ids in their order: it distributes over concatenation. */
  lemma {:induction false} WithoutAppend<T(!new)>(a: seq<T>, b: seq<T>, x: T)
    ensures Without(a + b, x) == Without(a, x) + Without(b, x)
  {
    if a == [] {
      assert a + b == b;
    } else {
      assert (a + b)[0] == a[0] && (a + b)[1..] == a[1..] + b;
      WithoutAppend(a[1..], b, x);
    }
  }

  /** `if (!s.includes(x)) s.push(x)`. */
  function Push<T(==,!new)>(s: seq<T>, x: T): (r: seq<T>)
    ensures forall y :: y in r <==> y in s || y == x
    ensures x in s ==> r == s
    ensures x !in s ==> r == s + [x]
  {
    if x in s then s else s + [x]
  }

  /** Pushing a missing value keeps a list duplicate-free. */
  lemma PushNoDup<T(!new)>(s: seq<T>, x: T)
    requires NoDup(s)
    ensures NoDup(Push(s, x))
  {
    if x !in s {
      var r := s + [x];
      forall i, j | 0 <= i < j < |r| ensures r[i] != r[j] {
        if j == |s| {
          assert r[i] == s[i];
        }
      }
    }
  }

  /** `more.forEach(x => { if (!s.includes(x)) s.push(x); })`. */
  function PushAll<T(==,!new)>(s: seq<T>, more: seq<T>): (r: seq<T>)
    ensures forall y :: y in r <==> y in s || y in more
    ensures s <= r
  {
    if more == [] then s
    else
      var front := PushAll(s, more[..|more| - 1]);
      assert forall y :: y in more <==> y in more[..|more| - 1] || y == more[|more| - 1] by {
        assert more == more[..|more| - 1] + [more[|more| - 1]];
      }
      Push(front, more[|more| - 1])
  }

  /** Pushing each missing value keeps a list duplicate-free. */
  lemma {:induction false} PushAllNoDup<T(!new)>(s: seq<T>, more: seq<T>)
    requires NoDup(s)
    ensures NoDup(PushAll(s, more))
  {
    if more != [] {
      PushAllNoDup(s, more[..|more| - 1]);
      PushNoDup(PushAll(s, more[..|more| - 1]), more[|more| - 1]);
    }
  }

  /** Pushing two lists in turn is pushing their concatenation. */
  lemma {:induction false} PushAllAppend<T(!new)>(s: seq<T>, a: seq<T>, b: seq<T>)
    ensures PushAll(PushAll(s, a), b) == PushAll(s, a + b)
  {
    if b == [] {
      assert a + b == a;
    } else {
      var ab := a + b;
      assert ab[..|ab| - 1] == a + b[..|b| - 1];
      assert ab[|ab| - 1] == b[|b| - 1];
      PushAllAppend(s, a, b[..|b| - 1]);
    }
  }
}
