/** Migration 0002: one key hash per tenant moves into the api_keys table, and back. */
module ApiKeyMigration {
  import opened Wrappers
  import opened ApiKeys

  /** tenants.api_key_hash. */
  type Column = map<TenantId, Option<Hash>>

  predicate Distinct(column: Column) {
    forall s, t | s in column && t in column && column[s].Some? && column[s] == column[t] :: s == t
  }

  /** api_keys.key_hash is unique. */
  predicate UniqueHashes(rows: map<RowId, Row>) {
    forall x, y | x in rows && y in rows && rows[x].hash == rows[y].hash :: x == y
  }

  /** Row k carries the hash of tenant t over. */
  predicate Carries(rows: map<RowId, Row>, k: RowId, t: TenantId, h: Hash, now: int) {
    k in rows && rows[k] == Row(t, h, now, None)
  }

  /** What the INSERT of `up` produces: one fresh row for every hash that is not null. */
  ghost predicate Moved(column: Column, rows: map<RowId, Row>, now: int) {
    && (forall t | t in column && column[t].Some? :: exists k :: Carries(rows, k, t, column[t].value, now))
    && (forall k | k in rows :: rows[k].tenant in column && rows[k] == Row(rows[k].tenant, rows[k].hash, now, None)
                                && column[rows[k].tenant] == Some(rows[k].hash))
    && (forall x, y | x in rows && y in rows && rows[x].tenant == rows[y].tenant :: x == y)
  }

  predicate LiveOf(rows: map<RowId, Row>, k: RowId, t: TenantId) {
    k in rows && rows[k].tenant == t && rows[k].revokedAt.None?
  }

  /** Row k is one that ORDER BY created_at DESC LIMIT 1 may pick for t; among rows of one
      instant the database is free. */
  ghost predicate Newest(rows: map<RowId, Row>, k: RowId, t: TenantId) {
    LiveOf(rows, k, t) && forall j | LiveOf(rows, j, t) :: rows[j].createdAt <= rows[k].createdAt
  }

  /** What the UPDATE of `down` may produce. */
  ghost predicate MovedBack(rows: map<RowId, Row>, tenants: set<TenantId>, column: Column) {
    && column.Keys == tenants
    && forall t | t in tenants ::
         match column[t]
         case Some(h) => exists k :: Newest(rows, k, t) && rows[k].hash == h
         case None => forall k :: !LiveOf(rows, k, t)
  }

  // ----- as code -----

  function Without(column: Column, left: set<TenantId>): Column {
    map t | t in column && t !in left :: column[t]
  }

  class Schema {
    var column: Option<Column>              // the column of tenants, while it exists
    var keys: Option<map<RowId, Row>>       // the api_keys table, while it exists
    const tenants: set<TenantId>

    constructor (column: Column)
      ensures this.column == Some(column) && keys == None && tenants == column.Keys
    {
      this.column, keys, tenants := Some(column), None, column.Keys;
    }

    /** up: fails on two tenants with one hash, because the new column is unique, and then
        leaves everything as it was. */
    method Up(now: int) returns (ok: bool)
      requires column.Some? && column.value.Keys == tenants && keys.None?
      modifies this
      ensures ok <==> Distinct(old(column).value)
      ensures ok ==> column.None? && keys.Some? && Moved(old(column).value, keys.value, now) && UniqueHashes(keys.value)
      ensures !ok ==> column == old(column) && keys == old(keys)
    {
      var was := column.value;
      var rows: map<RowId, Row> := map[];
      var left := tenants;
      var nextId: nat := 0;
      while left != {}
        invariant left <= tenants && column == old(column) && keys == old(keys)
        invariant forall k | k in rows :: k < nextId
        invariant Moved(Without(was, left), rows, now)
        invariant UniqueHashes(rows)
        decreases |left|
      {
        var t :| t in left;
        ghost var rows0, left0 := rows, left;
        left := left - {t};
        if was[t].Some? {
          var h := was[t].value;
          if k :| k in rows && rows[k].hash == h {
            assert rows[k].tenant != t;
            return false;
          }
          rows := rows[nextId := Row(t, h, now, None)];
          nextId := nextId + 1;
        }
        MovedStep(was, rows0, rows, left0, t, nextId - 1, now);
      }
      assert Without(was, left) == was;
      HashesDistinct(was, rows, now);
      column, keys := None, Some(rows);
      return true;
    }

    /** down: the column comes back with the newest live key of each tenant. */
    method Down()
      requires keys.Some? && column.None?
      modifies this
      ensures column.Some? && keys.None? && MovedBack(old(keys).value, tenants, column.value)
    {
      var rows := keys.value;
      var back: Column := map[];
      var left := tenants;
      while left != {}
        invariant left <= tenants && MovedBack(rows, tenants - left, back)
        decreases |left|
      {
        var t :| t in left;
        var best := NewestOf(rows, t);
        assert best.None? ==> forall k :: !LiveOf(rows, k, t);
        back := back[t := if best.Some? then Some(rows[best.value].hash) else None];
        left := left - {t};
      }
      assert tenants - left == tenants;
      column, keys := Some(back), None;
    }
  }

  /** The sub-select of `down`. */
  method NewestOf(rows: map<RowId, Row>, t: TenantId) returns (best: Option<RowId>)
    ensures best.Some? ==> Newest(rows, best.value, t)
    ensures best.None? ==> forall k :: !LiveOf(rows, k, t)
  {
    best := None;
    var left := rows.Keys;
    while left != {}
      invariant left <= rows.Keys
      invariant best.Some? ==> LiveOf(rows, best.value, t)
                               && forall j | LiveOf(rows, j, t)
                                     && j !in left :: rows[j].createdAt <= rows[best.value].createdAt
      invariant best.None? ==> forall j | LiveOf(rows, j, t) :: j in left
      decreases |left|
    {
      var k :| k in left;
      left := left - {k};
      if LiveOf(rows, k, t) && (best.None? || rows[best.value].createdAt < rows[k].createdAt) {
        best := Some(k);
      }
    }
  }

  lemma MovedStep(column: Column, rows: map<RowId, Row>, more: map<RowId, Row>, left: set<TenantId>, t: TenantId,
      id: int, now: int)
    requires t in left && left <= column.Keys
    requires Moved(Without(column, left), rows, now)
    requires if column[t].Some? then id >= 0 && id !in rows && more == rows[id := Row(t, column[t].value, now, None)]
               else more == rows
    ensures Moved(Without(column, left - {t}), more, now)
  {
    var before, after := Without(column, left), Without(column, left - {t});
    forall x | x in after && after[x].Some? ensures exists k :: Carries(more, k, x, after[x].value, now) {
      if x == t {
        assert Carries(more, id, t, column[t].value, now);
      } else {
        var k :| Carries(rows, k, x, before[x].value, now);
        assert Carries(more, k, x, after[x].value, now);
      }
    }
  }

  lemma HashesDistinct(column: Column, rows: map<RowId, Row>, now: int)
    requires Moved(column, rows, now) && UniqueHashes(rows)
    ensures Distinct(column)
  {
  }

  // ----- what the data move preserves -----

  /** up keeps every login working: a hash belongs to a tenant before exactly when it resolves
      to that tenant after. */
  lemma UpPreserves(column: Column, rows: map<RowId, Row>, now: int, h: Hash, t: TenantId)
    requires Distinct(column) && Moved(column, rows, now)
    ensures (t in column && column[t] == Some(h)) <==> Resolve(rows, h) == Some(t)
  {
    if t in column && column[t] == Some(h) {
      var k :| Carries(rows, k, t, h, now);
      assert Live(rows, k, h);
    }
  }

  /** down after up restores the column, whichever rows the database picks. */
  lemma DownRestores(column: Column, rows: map<RowId, Row>, back: Column, now: int)
    requires Moved(column, rows, now) && MovedBack(rows, column.Keys, back)
    ensures back == column
  {
    forall t | t in column ensures back[t] == column[t] {
      if column[t].Some? {
        var k :| Carries(rows, k, t, column[t].value, now);
        assert LiveOf(rows, k, t);
      }
    }
  }

  /** down never hands a key to another tenant, and leaves a key to every tenant that has one. */
  lemma DownIsSound(rows: map<RowId, Row>, tenants: set<TenantId>, back: Column, t: TenantId, h: Hash)
    requires UniqueHashes(rows) && MovedBack(rows, tenants, back) && t in tenants
    ensures back[t] == Some(h) ==> Resolve(rows, h) == Some(t)
    ensures (exists k :: LiveOf(rows, k, t)) <==> back[t].Some?
  {
    if back[t] == Some(h) {
      var k :| Newest(rows, k, t) && rows[k].hash == h;
      assert Live(rows, k, h);
    }
  }

  /** The i-th event issued that key, which stands and whose row is a newest live one of t. */
  ghost predicate KeptKey(rows: map<RowId, Row>, run: seq<Event>, i: nat, key: Secret, t: TenantId) {
    IssuedBy(run, i, key, t) && Standing(run, i) && Newest(rows, run[i].id, t)
  }

  /** After any history of issues and revocations, whatever key still works after down was issued
      to that tenant, was not revoked, and is a newest one: older live keys stop working. */
  lemma DownKeepsNewest(hash: Secret -> Hash, run: seq<Event>, tenants: set<TenantId>, back: Column, key: Secret,
      t: TenantId)
    requires Injective(hash) && Legal(hash, run) && MovedBack(Table(hash, run), tenants, back) && t in tenants
    requires back[t] == Some(hash(key))
    ensures exists i: nat :: KeptKey(Table(hash, run), run, i, key, t)
  {
    TableFollows(hash, run);
    var rows := Table(hash, run);
    hide Legal, Table;
    var k: nat :| Newest(rows, k, t) && rows[k].hash == hash(key);
    var i: nat :| 0 <= i < |run| && run[i].Issue? && run[i].id == k;
    assert KeptKey(rows, run, i, key, t);
  }
}
