/** The finalizer list: membership, removal, and what any history of additions and removals keeps. */
module Finalizers {

  const FINALIZER := "piholecluster.supporterino.de/finalizer"

  function Without(list: seq<string>, s: string): seq<string> {
    if list == [] then []
    else
      var last := list[|list| - 1];
      Without(list[..|list| - 1], s) + if last == s then [] else [last]
  }

  method RemoveString(list: seq<string>, s: string) returns (out: seq<string>)
    ensures out == Without(list, s)
  {
    out := [];
    for i := 0 to |list|
      invariant out == Without(list[..i], s)
    {
      assert list[..i + 1][..i] == list[..i];
      if list[i] != s {
        out := out + [list[i]];
      }
    }
    assert list[..|list|] == list;
  }

  method ContainsString(list: seq<string>, s: string) returns (found: bool)
    ensures found <==> s in list
  {
    for i := 0 to |list|
      invariant s !in list[..i]
    {
      if list[i] == s {
        return true;
      }
    }
    assert list[..|list|] == list;
    found := false;
  }

  function Count(list: seq<string>, s: string): nat {
    multiset(list)[s]
  }

  lemma {:induction false} WithoutCounts(list: seq<string>, s: string, t: string)
    ensures Count(Without(list, s), t) == if t == s then 0 else Count(list, t)
  {
    if list != [] {
      WithoutCounts(list[..|list| - 1], s, t);
      assert list == list[..|list| - 1] + [list[|list| - 1]];
    }
  }

  lemma {:induction false} WithoutAppend(list: seq<string>, more: seq<string>, s: string)
    ensures Without(list + more, s) == Without(list, s) + Without(more, s)
  {
    if more == [] {
      assert list + more == list;
    } else {
      WithoutAppend(list, more[..|more| - 1], s);
      assert (list + more)[..|list + more| - 1] == list + more[..|more| - 1];
    }
  }

  lemma {:induction false} WithoutAbsent(list: seq<string>, s: string)
    requires s !in list
    ensures Without(list, s) == list
  {
    if list != [] {
      WithoutAbsent(list[..|list| - 1], s);
    }
  }

  lemma {:induction false} WithoutTwice(list: seq<string>, s: string)
    ensures Without(Without(list, s), s) == Without(list, s)
    ensures s !in Without(list, s)
  {
    WithoutCounts(list, s, s);
    WithoutAbsent(Without(list, s), s);
  }

  /** The two ways a run changes the list: append when missing, and remove. */
  datatype Change = Add | Remove

  function Changed(list: seq<string>, c: Change): seq<string> {
    match c
    case Add => if FINALIZER in list then list else list + [FINALIZER]
    case Remove => Without(list, FINALIZER)
  }

  function AfterAll(list: seq<string>, changes: seq<Change>): seq<string> {
    if changes == [] then list else Changed(AfterAll(list, changes[..|changes| - 1]), changes[|changes| - 1])
  }

  /**
   * Over any history the finalizer occurs at most once, and the finalizers of others keep
   * their order and multiplicity.
   */
  lemma {:induction false} OthersKept(list: seq<string>, changes: seq<Change>)
    requires Count(list, FINALIZER) <= 1
    ensures Count(AfterAll(list, changes), FINALIZER) <= 1
    ensures Without(AfterAll(list, changes), FINALIZER) == Without(list, FINALIZER)
  {
    if changes != [] {
      var before := AfterAll(list, changes[..|changes| - 1]);
      OthersKept(list, changes[..|changes| - 1]);
      match changes[|changes| - 1]
      case Add =>
        WithoutAppend(before, [FINALIZER], FINALIZER);
        assert Without([FINALIZER], FINALIZER) == [];
      case Remove =>
        WithoutTwice(before, FINALIZER);
    }
  }

  /** Removing what was added to a list without it gives the list back. */
  lemma RemoveUndoesAdd(list: seq<string>)
    requires FINALIZER !in list
    ensures Changed(Changed(list, Add), Remove) == list
  {
    WithoutAppend(list, [FINALIZER], FINALIZER);
    WithoutAbsent(list, FINALIZER);
    assert Without([FINALIZER], FINALIZER) == [];
  }
}
