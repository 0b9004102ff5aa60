/**
 * A per-user table the pull command updates in place: one of the
 * `HashMap<String, Vec<T>>` values it fetches, filters and drains.
 */
module Tables {
  import opened Wrappers
  import opened Retain

  class Table<T(!new)> {
    var entries: map<string, seq<T>>

    constructor (entries: map<string, seq<T>>)
      ensures this.entries == entries
    {
      this.entries := entries;
    }

    /**
     * `ids.into_iter().for_each(|v| table.get_mut(user).unwrap().retain(|f| key(f) != v))`.
     * Returns false for the panic of `unwrap`, which happens only when there
     * is an id to remove and the user has no entry; then nothing has changed.
     * Otherwise the user's list loses exactly the items whose key is one of
     * the ids, and every other entry is untouched.
     */
    method RetainUnarchived(user: string, key: T -> string, ids: seq<string>) returns (ok: bool)
      modifies this
      ensures ok <==> user in old(entries) || ids == []
      ensures entries == if user in old(entries)
                         then old(entries)[user := Unarchived(old(entries)[user], key, IdSet(ids))]
                         else old(entries)
    {
      if user !in entries {
        // The entry is looked up again for every id, and it never appears:
        // the first id, if there is one, panics.
        return ids == [];
      }
      ghost var items := entries[user];
      NothingArchived(items, key, {});
      assert IdSet(ids[..0]) == {};
      var i := 0;
      while i < |ids|
        invariant 0 <= i <= |ids|
        invariant entries == old(entries)[user := Unarchived(items, key, IdSet(ids[..i]))]
      {
        OneMoreId(items, key, ids, i);
        entries := entries[user := Unarchived(entries[user], key, {ids[i]})];
        i := i + 1;
      }
      assert ids[..i] == ids;
      ok := true;
    }

    /** `HashMap::remove`: the user's list, if there was one, and the table without it. */
    method Remove(user: string) returns (items: Option<seq<T>>)
      modifies this
      ensures items == if user in old(entries) then Some(old(entries)[user]) else None
      ensures entries == old(entries) - {user}
    {
      if user in entries {
        items := Some(entries[user]);
      } else {
        items := None;
      }
      entries := entries - {user};
    }
  }

  /** Removing the ids one at a time: the next id joins the set removed so far. */
  lemma OneMoreId<T(!new)>(items: seq<T>, key: T -> string, ids: seq<string>, i: nat)
    requires i < |ids|
    ensures Unarchived(Unarchived(items, key, IdSet(ids[..i])), key, {ids[i]}) == Unarchived(items, key, IdSet(ids[..i + 1]))
  {
    UnarchivedTwice(items, key, IdSet(ids[..i]), {ids[i]});
    IdSetGrows(ids, i);
  }

  lemma IdSetGrows(ids: seq<string>, i: nat)
    requires i < |ids|
    ensures IdSet(ids[..i + 1]) == IdSet(ids[..i]) + {ids[i]}
  {
    assert ids[..i + 1] == ids[..i] + [ids[i]];
  }
}
