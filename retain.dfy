/**
 * The filter of the skip pass. For every id found on disk the pull command
 * runs `Vec::retain(|f| key(f) != id)` on a user's list; together these
 * keep exactly the items whose key was not found, in their original order.
 */
module Retain {

  /** The ids found on disk, as a set. */
  function IdSet(ids: seq<string>): set<string> {
    set v | v in ids
  }

  /** The items whose key is not in `archived`, in their original order. */
  function Unarchived<T(!new)>(items: seq<T>, key: T -> string, archived: set<string>): (r: seq<T>)
    ensures |r| <= |items|
  {
    if items == [] then []
    else
      var n := |items| - 1;
      Unarchived(items[..n], key, archived) + (if key(items[n]) in archived then [] else [items[n]])
  }

  /** An item survives exactly when it was in the list and its key was not found on disk. */
  lemma {:induction false} UnarchivedMembers<T(!new)>(items: seq<T>, key: T -> string, archived: set<string>)
    ensures forall x :: x in Unarchived(items, key, archived) <==> x in items && key(x) !in archived
    decreases |items|
  {
    if items != [] {
      var n := |items| - 1;
      assert items == items[..n] + [items[n]];
      UnarchivedMembers(items[..n], key, archived);
    }
  }

  /** The positions of the items `Unarchived` keeps. */
  function KeptPositions<T(!new)>(items: seq<T>, key: T -> string, archived: set<string>): (ps: seq<nat>)
    ensures forall j :: 0 <= j < |ps| ==> ps[j] < |items|
  {
    if items == [] then []
    else
      var n := |items| - 1;
      var rest := KeptPositions(items[..n], key, archived);
      if key(items[n]) in archived then rest else rest + [n]
  }

  /**
   * The survivors are the items at the kept positions, taken in increasing
   * order: `retain` only removes and keeps the relative order.
   */
  lemma {:induction false} UnarchivedInOrder<T(!new)>(items: seq<T>, key: T -> string, archived: set<string>)
    ensures var ps := KeptPositions(items, key, archived);
      && |ps| == |Unarchived(items, key, archived)|
      && (forall j :: 0 <= j < |ps| ==> Unarchived(items, key, archived)[j] == items[ps[j]])
      && (forall j1, j2 :: 0 <= j1 < j2 < |ps| ==> ps[j1] < ps[j2])
    decreases |items|
  {
    if items != [] {
      var n := |items| - 1;
      var front := items[..n];
      UnarchivedInOrder(front, key, archived);
      var rest := KeptPositions(front, key, archived);
      var kept := Unarchived(front, key, archived);
      assert forall j :: 0 <= j < |rest| ==> kept[j] == items[rest[j]] by {
        forall j | 0 <= j < |rest| ensures kept[j] == items[rest[j]] {
          assert front[rest[j]] == items[rest[j]];
        }
      }
      if key(items[n]) !in archived {
        var ps := rest + [n];
        assert KeptPositions(items, key, archived) == ps;
        assert Unarchived(items, key, archived) == kept + [items[n]];
        assert forall j1, j2 :: 0 <= j1 < j2 < |ps| ==> ps[j1] < ps[j2] by {
          forall j1, j2 | 0 <= j1 < j2 < |ps| ensures ps[j1] < ps[j2] {
            if j2 < |rest| { assert ps[j1] == rest[j1] && ps[j2] == rest[j2]; }
            else { assert ps[j1] == rest[j1] < n; }
          }
        }
      } else {
        assert KeptPositions(items, key, archived) == rest;
        assert Unarchived(items, key, archived) == kept;
      }
    }
  }

  /** A position is kept exactly when its item's key is not archived: nothing unarchived is lost. */
  lemma {:induction false} KeptPositionsExact<T(!new)>(items: seq<T>, key: T -> string, archived: set<string>)
    ensures forall i :: 0 <= i < |items| ==> (i in KeptPositions(items, key, archived) <==> key(items[i]) !in archived)
    decreases |items|
  {
    if items != [] {
      var n := |items| - 1;
      var front := items[..n];
      KeptPositionsExact(front, key, archived);
      var rest := KeptPositions(front, key, archived);
      assert n !in rest;
      forall i | 0 <= i < |items|
        ensures i in KeptPositions(items, key, archived) <==> key(items[i]) !in archived
      {
        if i < n { assert front[i] == items[i]; }
      }
    }
  }

  /** Filtering distributes over concatenation. */
  lemma {:induction false} UnarchivedAppend<T(!new)>(xs: seq<T>, ys: seq<T>, key: T -> string, archived: set<string>)
    ensures Unarchived(xs + ys, key, archived) == Unarchived(xs, key, archived) + Unarchived(ys, key, archived)
    decreases |ys|
  {
    if ys != [] {
      var n := |ys| - 1;
      assert (xs + ys)[..|xs| + n] == xs + ys[..n];
      UnarchivedAppend(xs, ys[..n], key, archived);
    } else {
      assert xs + ys == xs;
    }
  }

  /** Removing one set of ids and then another is removing both at once. */
  lemma {:induction false} UnarchivedTwice<T(!new)>(items: seq<T>, key: T -> string, a: set<string>, b: set<string>)
    ensures Unarchived(Unarchived(items, key, a), key, b) == Unarchived(items, key, a + b)
    decreases |items|
  {
    if items != [] {
      var n := |items| - 1;
      var last := items[n];
      UnarchivedTwice(items[..n], key, a, b);
      var tail := if key(last) in a then [] else [last];
      UnarchivedAppend(Unarchived(items[..n], key, a), tail, key, b);
    }
  }

  /** Running the skip pass a second time with the same ids removes nothing more. */
  lemma UnarchivedIdempotent<T(!new)>(items: seq<T>, key: T -> string, archived: set<string>)
    ensures Unarchived(Unarchived(items, key, archived), key, archived) == Unarchived(items, key, archived)
  {
    UnarchivedTwice(items, key, archived, archived);
    assert archived + archived == archived;
  }

  /** When no item's key is archived, the list is left exactly as it was. */
  lemma {:induction false} NothingArchived<T(!new)>(items: seq<T>, key: T -> string, archived: set<string>)
    requires forall x :: x in items ==> key(x) !in archived
    ensures Unarchived(items, key, archived) == items
    decreases |items|
  {
    if items != [] {
      var n := |items| - 1;
      assert items == items[..n] + [items[n]];
      NothingArchived(items[..n], key, archived);
    }
  }
}
