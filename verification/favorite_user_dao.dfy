/** The `favorite_users` table behind `FavoriteUserDao`, as a map from primary key to row. */
module FavoriteUserDao {
  import opened Wrappers
  import opened Entities

  type Table = map<string, FavoriteUser>

  const Empty: Table := map[]

  /** Every row is stored under its own primary key. */
  predicate Keyed(t: Table) {
    forall k :: k in t ==> t[k].uuid == k
  }

  /** `@Insert(onConflict = REPLACE) insertFavorite`: an upsert on the primary key. */
  function InsertFavorite(t: Table, f: FavoriteUser): (r: Table)
    ensures r.Keys == t.Keys + {f.uuid}
    ensures r[f.uuid] == f
    ensures forall k :: k in t && k != f.uuid ==> r[k] == t[k]
    ensures Keyed(t) ==> Keyed(r)
  {
    t[f.uuid := f]
  }

  /** `SELECT * ... WHERE uuid = :uuid`: the stored row, or null. */
  function GetFavoriteByUuid(t: Table, uuid: string): (r: Option<FavoriteUser>)
    ensures r.Some? <==> uuid in t
    ensures r.Some? ==> r.value == t[uuid]
    ensures Keyed(t) && r.Some? ==> r.value.uuid == uuid
  {
    if uuid in t then Some(t[uuid]) else None
  }

  /** `@Delete deleteFavorite`: Room deletes the row whose primary key matches the entity's,
      whatever the entity's other columns hold. */
  function DeleteFavorite(t: Table, f: FavoriteUser): (r: Table)
    ensures r.Keys == t.Keys - {f.uuid}
    ensures forall k :: k in r ==> r[k] == t[k]
    ensures Keyed(t) ==> Keyed(r)
  {
    t - {f.uuid}
  }

  /** `DELETE FROM favorite_users WHERE uuid = :uuid`. */
  function DeleteFavoriteByUuid(t: Table, uuid: string): (r: Table)
    ensures r.Keys == t.Keys - {uuid}
    ensures forall k :: k in r ==> r[k] == t[k]
    ensures uuid !in t ==> r == t
    ensures Keyed(t) ==> Keyed(r)
  {
    t - {uuid}
  }

  /** `SELECT EXISTS(... WHERE uuid = :uuid)`. */
  function IsFavorite(t: Table, uuid: string): (b: bool)
    ensures b <==> GetFavoriteByUuid(t, uuid).Some?
  {
    uuid in t
  }

  /** Re-inserting an existing key replaces its row and does not grow the table;
      inserting a new key adds exactly one row. */
  lemma InsertSize(t: Table, f: FavoriteUser)
    ensures f.uuid in t ==> |InsertFavorite(t, f)| == |t|
    ensures f.uuid !in t ==> |InsertFavorite(t, f)| == |t| + 1
  {
  }

  /** A keyed table never holds two rows with the same uuid. */
  lemma KeyedRowsAreUnique(t: Table, k1: string, k2: string)
    requires Keyed(t)
    requires k1 in t && k2 in t && k1 != k2
    ensures t[k1].uuid != t[k2].uuid
  {
  }

  /** Deleting an entity and deleting by its uuid agree: the entity's other columns play no
      part in `@Delete`. */
  lemma DeletesAgree(t: Table, f: FavoriteUser)
    ensures DeleteFavorite(t, f) == DeleteFavoriteByUuid(t, f.uuid)
  {
  }

  /** Inserting a row under a fresh key and then deleting that key restores the table. */
  lemma InsertThenDeleteRestores(t: Table, f: FavoriteUser)
    requires f.uuid !in t
    ensures DeleteFavoriteByUuid(InsertFavorite(t, f), f.uuid) == t
  {
  }

  /** `getAllFavorites` (one emission of `SELECT * FROM favorite_users`): every stored row exactly
      once, in an order the query does not fix. */
  method GetAllFavorites(t: Table) returns (rows: seq<FavoriteUser>)
    requires Keyed(t)
    ensures |rows| == |t|
    ensures forall i :: 0 <= i < |rows| ==> rows[i].uuid in t && t[rows[i].uuid] == rows[i]
    ensures forall i, j :: 0 <= i < j < |rows| ==> rows[i].uuid != rows[j].uuid
    ensures forall k :: k in t ==> t[k] in rows
  {
    rows := [];
    var pending := t.Keys;
    while pending != {}
      invariant pending <= t.Keys
      invariant |rows| + |pending| == |t.Keys|
      invariant forall i :: 0 <= i < |rows| ==> rows[i].uuid in t.Keys - pending && t[rows[i].uuid] == rows[i]
      invariant forall i, j :: 0 <= i < j < |rows| ==> rows[i].uuid != rows[j].uuid
      invariant forall k :: k in t.Keys - pending ==> t[k] in rows
      decreases pending
    {
      var k :| k in pending;
      rows := rows + [t[k]];
      pending := pending - {k};
    }
  }
}
