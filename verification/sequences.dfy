/** Facts about ordered lists used as sets: uniqueness and Python's
    `list.remove`, which deletes the first occurrence of a value. */
module Sequences {
  import opened Outcomes

  /** No value occurs twice in `s`. */
  predicate NoDup<T(==)>(s: seq<T>) {
    forall i, j | 0 <= i < j < |s| :: s[i] != s[j]
  }

  /** `t` is `s` with its first occurrence of `x` cut out: the reference
      meaning of `list.remove(x)` when `x` is present. */
  ghost predicate IsFirstRemoval<T>(s: seq<T>, x: T, t: seq<T>) {
    exists i :: 0 <= i < |s| && s[i] == x && x !in s[..i] && t == s[..i] + s[i + 1..]
  }

  /** A list starting with `x` loses its head. */
  lemma FirstRemovalAtHead<T>(s: seq<T>, x: T)
    requires |s| > 0 && s[0] == x
    ensures IsFirstRemoval(s, x, s[1..])
  {
  }

  /** A head other than `x` is kept in front of the rest. */
  lemma FirstRemovalPrepend<T>(h: T, s: seq<T>, x: T, t: seq<T>)
    requires h != x && IsFirstRemoval(s, x, t)
    ensures IsFirstRemoval([h] + s, x, [h] + t)
  {
    var i :| 0 <= i < |s| && s[i] == x && x !in s[..i] && t == s[..i] + s[i + 1..];
    var s' := [h] + s;
    assert s'[i + 1] == x;
    assert s'[..i + 1] == [h] + s[..i];
    assert s'[i + 2..] == s[i + 1..];
    assert [h] + t == s'[..i + 1] + s'[i + 2..];
  }

  /** Python's `list.remove(x)`: `None` stands for the ValueError raised when
      `x` is absent. */
  function RemoveFirst<T(==)>(s: seq<T>, x: T): (r: Option<seq<T>>)
    ensures r.None? <==> x !in s
    ensures r.Some? ==> IsFirstRemoval(s, x, r.value)
  {
    if |s| == 0 then None
    else if s[0] == x then
      FirstRemovalAtHead(s, x);
      Some(s[1..])
    else
      match RemoveFirst(s[1..], x)
      case None =>
        assert s == [s[0]] + s[1..];
        None
      case Some(t) =>
        assert s == [s[0]] + s[1..];
        FirstRemovalPrepend(s[0], s[1..], x, t);
        Some([s[0]] + t)
  }

  /** The first occurrence is unique, so the reference definition pins down
      a single result. */
  lemma FirstRemovalUnique<T>(s: seq<T>, x: T, t1: seq<T>, t2: seq<T>)
    requires IsFirstRemoval(s, x, t1) && IsFirstRemoval(s, x, t2)
    ensures t1 == t2
  {
  }

  /** Removing the first occurrence takes exactly one copy of `x` out. */
  lemma FirstRemovalContents<T>(s: seq<T>, x: T, t: seq<T>)
    requires IsFirstRemoval(s, x, t)
    ensures |t| + 1 == |s|
    ensures multiset(t) + multiset{x} == multiset(s)
  {
    var i :| 0 <= i < |s| && s[i] == x && x !in s[..i] && t == s[..i] + s[i + 1..];
    assert s == s[..i] + [x] + s[i + 1..];
  }

  /** On a duplicate-free list the removed value is gone and no duplicate appears. */
  lemma FirstRemovalKeepsNoDup<T>(s: seq<T>, x: T, t: seq<T>)
    requires NoDup(s) && IsFirstRemoval(s, x, t)
    ensures NoDup(t) && x !in t
  {
  }

  /** Appending a value that is absent keeps a list duplicate-free. */
  lemma AppendKeepsNoDup<T>(s: seq<T>, x: T)
    requires NoDup(s) && x !in s
    ensures NoDup(s + [x])
  {
  }

  /** Removing a value that was just appended (and was absent before)
      gives back the original list. */
  lemma {:induction false} RemoveFirstUndoesAppend<T>(s: seq<T>, x: T)
    requires x !in s
    ensures RemoveFirst(s + [x], x) == Some(s)
  {
    var s' := s + [x];
    assert s'[..|s|] == s;
    assert s'[|s| + 1..] == [];
    assert IsFirstRemoval(s', x, s) by {
      assert s'[|s|] == x && x !in s'[..|s|] && s == s'[..|s|] + s'[|s| + 1..];
    }
    FirstRemovalUnique(s', x, RemoveFirst(s', x).value, s);
  }
}
