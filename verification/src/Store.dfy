// internal/alexa/store.go: a table of versioned rows, and one atomic,
// conditional, multi-row write.
module Store {
  import opened Prelude

  datatype Row<+V> = Row(version: int, expires: int, data: V)

  // before is the row the writer read (None: it read no row); after is the row
  // it wants to leave behind (None: delete).
  datatype Change<+V> = Change(before: Option<Row<V>>, after: Option<Row<V>>)

  function Changed<V>(before: Option<Row<V>>, value: V, expires: int): Change<V> {
    Change(before, Some(Row(if before.Some? then before.value.version + 1 else 1, expires, value)))
  }

  // The write condition: no row where none was read, else an equal version.
  predicate Holds<V>(current: Option<Row<V>>, c: Change<V>) {
    if c.before.None? then current.None?
    else current.Some? && current.value.version == c.before.value.version
  }

  predicate Matches<K, V>(rows: map<K, Row<V>>, tx: map<K, Change<V>>) {
    forall k :: k in tx ==> Holds(Get(rows, k), tx[k])
  }

  function Apply<K, V>(rows: map<K, Row<V>>, tx: map<K, Change<V>>): map<K, Row<V>> {
    map k | k in rows.Keys + tx.Keys && (k in tx ==> tx[k].after.Some?)
      :: if k in tx then tx[k].after.value else rows[k]
  }

  // ----- A version is a row identity wherever rows are only put, never deleted -----

  // The snapshot snap of row k is either still the stored row or strictly older.
  ghost predicate Faithful<K, V>(rows: map<K, Row<V>>, k: K, snap: Row<V>) {
    k in rows && snap.version <= rows[k].version && (snap.version == rows[k].version ==> rows[k] == snap)
  }

  ghost predicate Current<K, V>(rows: map<K, Row<V>>, k: K, snap: Row<V>) {
    k in rows && rows[k].version == snap.version
  }

  ghost predicate Grows<K(!new), V>(old_: map<K, Row<V>>, new_: map<K, Row<V>>) {
    forall k :: k in old_ ==> Faithful(new_, k, old_[k])
  }

  // Every change is a put that bumps the version by one, as Changed builds it.
  ghost predicate Puts<K(!new), V>(tx: map<K, Change<V>>) {
    forall k :: k in tx ==> tx[k].after.Some? && tx[k] == Changed(tx[k].before, tx[k].after.value.data, tx[k].after.value.expires)
  }

  lemma CommitGrows<K(!new), V>(rows: map<K, Row<V>>, tx: map<K, Change<V>>)
    requires Matches(rows, tx) && Puts(tx)
    ensures Grows(rows, Apply(rows, tx))
  {
    var after := Apply(rows, tx);
    forall k | k in rows
      ensures Faithful(after, k, rows[k])
    {
      if k in tx { assert Holds(Get(rows, k), tx[k]); }
    }
  }

  lemma FaithfulStays<K(!new), V>(a: map<K, Row<V>>, b: map<K, Row<V>>, k: K, snap: Row<V>)
    requires Faithful(a, k, snap) && Grows(a, b)
    ensures Faithful(b, k, snap)
    ensures Current(b, k, snap) ==> Current(a, k, snap) && a[k] == b[k] == snap
  {
    assert Faithful(b, k, a[k]);
  }

  // A faithful snapshot passes the write condition exactly when it is still the stored row.
  lemma FaithfulMatch<K(!new), V>(rows: map<K, Row<V>>, k: K, snap: Row<V>, after: Option<Row<V>>)
    requires Faithful(rows, k, snap)
    ensures Holds(Get(rows, k), Change(Some(snap), after)) <==> rows[k] == snap
  {
  }

  // Deletion breaks this: a row deleted and put again restarts at version 1, so a
  // stale snapshot of the first incarnation passes the condition against the second.
  lemma DeletionReusesVersions<K(!new), V>(k: K, a: V, b: V, expires: int)
    requires a != b
    ensures
      var first := Changed(None, a, expires);
      var rows1 := Apply(map[], map[k := first]);
      var snap := rows1[k];
      var rows2 := Apply(rows1, map[k := Change(Some(snap), None)]);
      var rows3 := Apply(rows2, map[k := Changed(None, b, expires)]);
      && Matches(rows1, map[k := Change(Some(snap), None)])
      && Matches(rows2, map[k := Changed(None, b, expires)])
      && Matches(rows3, map[k := Change(Some(snap), None)])
      && rows3[k] != snap
  {
    var rows1 := Apply(map[], map[k := Changed(None, a, expires)]);
    assert k in rows1;
    var rows2 := Apply(rows1, map[k := Change(Some(rows1[k]), None)]);
    assert k !in rows2;
    assert k in Apply(rows2, map[k := Changed(None, b, expires)]);
  }

  // ----- Dynamo.Commit -----

  datatype Key = Key(owner: string, key: string)
  datatype Entry = Entry(key: Key, row: Row<string>)
  datatype Write = Write(before: Option<Entry>, after: Option<Entry>)
  datatype Outcome = Committed | Conflict | Unauthorized | Rejected

  function Target(w: Write): Option<Key> {
    if w.after.Some? then Some(w.after.value.key)
    else if w.before.Some? then Some(w.before.value.key) else None
  }

  function RowOf(e: Option<Entry>): Option<Row<string>> {
    if e.None? then None else Some(e.value.row)
  }

  function ChangeOf(w: Write): Change<string> { Change(RowOf(w.before), RowOf(w.after)) }

  // Every write names a row, all rows belong to one named owner, and a write does
  // not move a row to another key.
  ghost predicate WellOwned(writes: seq<Write>) {
    forall i :: 0 <= i < |writes| ==>
      var w := writes[i];
      && Target(w).Some?
      && Target(w).value.owner != ""
      && Target(w).value.owner == OwnerOf(writes[0])
      && (w.before.Some? ==> w.before.value.key == Target(w).value)
  }

  function OwnerOf(w: Write): string {
    if Target(w).Some? then Target(w).value.owner else ""
  }

  ghost predicate DistinctTargets(writes: seq<Write>) {
    forall i, j :: 0 <= i < j < |writes| ==> Target(writes[i]) != Target(writes[j])
  }

  // tx is the transaction that writes ask for.
  ghost predicate Asks(writes: seq<Write>, tx: map<Key, Change<string>>) {
    && (forall i :: 0 <= i < |writes| ==> Target(writes[i]).Some? && Target(writes[i]).value in tx
                                          && tx[Target(writes[i]).value] == ChangeOf(writes[i]))
    && (forall k :: k in tx ==> exists i :: 0 <= i < |writes| && Target(writes[i]) == Some(k))
  }

  class Dynamo {
    var rows: map<Key, Row<string>>
    var boundOwner: string          // userId in the CONFIG/OWNER row
    var activeOwners: set<string>   // owners whose PROFILE row says role owner, status active

    constructor ()
      ensures rows == map[] && boundOwner == "" && activeOwners == {}
    {
      rows, boundOwner, activeOwners := map[], "", {};
    }

    // The owner fence: every transaction also checks the account behind it.
    ghost predicate Fence(owner: string)
      reads this
    {
      owner == boundOwner && owner in activeOwners
    }

    // All or nothing: the table changes only when every row condition and the owner
    // fence hold, and then by exactly the writes asked for. A failed row condition is
    // a conflict even when the fence fails too; a repeated row is refused outright.
    method Commit(writes: seq<Write>) returns (outcome: Outcome, ghost tx: map<Key, Change<string>>)
      modifies this`rows
      ensures !WellOwned(writes) ==> outcome == Unauthorized
      ensures WellOwned(writes) && !DistinctTargets(writes) ==> outcome == Rejected
      ensures WellOwned(writes) && DistinctTargets(writes) ==>
                && Asks(writes, tx)
                && (outcome == Committed <==> writes == [] || (Matches(old(rows), tx) && Fence(OwnerOf(writes[0]))))
                && (outcome == Conflict <==> !Matches(old(rows), tx))
                && (outcome == Unauthorized <==> writes != [] && Matches(old(rows), tx) && !Fence(OwnerOf(writes[0])))
      ensures outcome == Committed ==> Asks(writes, tx) && rows == Apply(old(rows), tx)
      ensures outcome != Committed ==> rows == old(rows)
    {
      var owned, repeated, owner, items := Plan(writes);
      tx := items;
      if !owned {
        outcome := Unauthorized;
      } else if writes == [] {
        assert Apply(rows, items) == rows;
        outcome := Committed;
      } else if repeated {
        outcome := Rejected;
      } else if !Matches(rows, items) {
        outcome := Conflict;
      } else if owner != boundOwner || owner !in activeOwners {
        outcome := Unauthorized;
      } else {
        outcome := Committed;
        rows := Apply(rows, items);
      }
    }
  }

  // Builds the transaction, refusing a write list that does not belong to one owner.
  method Plan(writes: seq<Write>) returns (owned: bool, repeated: bool, owner: string, items: map<Key, Change<string>>)
    ensures owned <==> WellOwned(writes)
    ensures owned ==> (repeated <==> !DistinctTargets(writes))
    ensures owned && !repeated ==> Asks(writes, items)
    ensures owned && writes != [] ==> owner == OwnerOf(writes[0])
    ensures writes == [] ==> items == map[]
  {
    hide Asks, DistinctTargets;
    owned, repeated, owner, items := true, false, "", map[];
    NothingAsked(writes);
    for i := 0 to |writes|
      invariant owned && WellOwned(writes[..i])
      invariant if i == 0 then owner == "" && items == map[] else owner == OwnerOf(writes[0]) && owner != ""
      invariant repeated <==> !DistinctTargets(writes[..i])
      invariant !repeated ==> Asks(writes[..i], items)
      invariant forall k :: k in items <==> exists j :: 0 <= j < i && Target(writes[j]) == Some(k)
    {
      var w := writes[i];
      var identity := Target(w);
      if identity.None? || identity.value.owner == ""
         || (owner != "" && owner != identity.value.owner)
         || (w.before.Some? && w.before.value.key != identity.value)
      {
        owned := false;
        return;
      }
      owner := identity.value.owner;
      Extend(writes, i, items, repeated);
      OwnedStep(writes, i);
      repeated := repeated || identity.value in items;
      items := items[identity.value := ChangeOf(w)];
    }
    assert writes[..|writes|] == writes;
  }

  lemma NothingAsked(writes: seq<Write>)
    ensures DistinctTargets(writes[..0]) && Asks(writes[..0], map[])
  {
  }

  lemma OwnedStep(writes: seq<Write>, i: nat)
    requires i < |writes| && WellOwned(writes[..i])
    requires Target(writes[i]).Some? && Target(writes[i]).value.owner != ""
    requires Target(writes[i]).value.owner == OwnerOf(writes[0])
    requires writes[i].before.Some? ==> writes[i].before.value.key == Target(writes[i]).value
    ensures WellOwned(writes[..i + 1])
  {
    var after := writes[..i + 1];
    forall j | 0 <= j < |after|
      ensures
        && Target(after[j]).Some?
        && Target(after[j]).value.owner != ""
        && Target(after[j]).value.owner == OwnerOf(after[0])
        && (after[j].before.Some? ==> after[j].before.value.key == Target(after[j]).value)
    {
      if j < i { assert after[j] == writes[..i][j]; }
    }
  }

  lemma ExtendDistinct(writes: seq<Write>, i: nat, items: map<Key, Change<string>>, repeated: bool)
    requires i < |writes| && Target(writes[i]).Some?
    requires repeated <==> !DistinctTargets(writes[..i])
    requires forall k :: k in items <==> exists j :: 0 <= j < i && Target(writes[j]) == Some(k)
    ensures !DistinctTargets(writes[..i + 1]) <==> repeated || Target(writes[i]).value in items
  {
    hide Target;
    var k := Target(writes[i]).value;
    var before, after := writes[..i], writes[..i + 1];
    if repeated {
      var a, b :| 0 <= a < b < i && Target(before[a]) == Target(before[b]);
      assert Target(after[a]) == Target(after[b]);
    } else if k in items {
      var j :| 0 <= j < i && Target(writes[j]) == Some(k);
      assert Target(after[j]) == Target(after[i]);
    } else {
      forall a, b | 0 <= a < b < |after|
        ensures Target(after[a]) != Target(after[b])
      {
        if b < i { assert Target(before[a]) != Target(before[b]); } else { assert Target(writes[a]) != Some(k); }
      }
    }
  }

  lemma ExtendAsks(writes: seq<Write>, i: nat, items: map<Key, Change<string>>)
    requires i < |writes| && Target(writes[i]).Some? && Target(writes[i]).value !in items && Asks(writes[..i], items)
    requires forall k :: k in items <==> exists j :: 0 <= j < i && Target(writes[j]) == Some(k)
    ensures Asks(writes[..i + 1], items[Target(writes[i]).value := ChangeOf(writes[i])])
  {
    hide Target, ChangeOf;
    var k := Target(writes[i]).value;
    var before, after, more := writes[..i], writes[..i + 1], items[k := ChangeOf(writes[i])];
    forall j | 0 <= j < |after|
      ensures Target(after[j]).Some? && Target(after[j]).value in more && more[Target(after[j]).value] == ChangeOf(after[j])
    {
      if j < i {
        assert after[j] == before[j] == writes[j];
        assert Target(before[j]).Some?;
      }
    }
    forall m | m in more
      ensures exists j :: 0 <= j < |after| && Target(after[j]) == Some(m)
    {
      if m == k { assert Target(after[i]) == Some(m); }
      else {
        var j :| 0 <= j < i && Target(writes[j]) == Some(m);
        assert Target(after[j]) == Some(m);
      }
    }
  }

  // One more write keeps items the transaction asked for so far.
  lemma Extend(writes: seq<Write>, i: nat, items: map<Key, Change<string>>, repeated: bool)
    requires i < |writes| && Target(writes[i]).Some?
    requires repeated <==> !DistinctTargets(writes[..i])
    requires !repeated ==> Asks(writes[..i], items)
    requires forall k :: k in items <==> exists j :: 0 <= j < i && Target(writes[j]) == Some(k)
    ensures
      var k := Target(writes[i]).value;
      && (!DistinctTargets(writes[..i + 1]) <==> repeated || k in items)
      && (!(repeated || k in items) ==> Asks(writes[..i + 1], items[k := ChangeOf(writes[i])]))
  {
    hide Asks, DistinctTargets;
    ExtendDistinct(writes, i, items, repeated);
    if !repeated && Target(writes[i]).value !in items { ExtendAsks(writes, i, items); }
  }
}
