/** API keys: issuing, revoking and resolving over whole histories, and the migration that moved
    the one hash per tenant into a table of its own and back. */
module ApiKeys {
  import opened Wrappers

  type TenantId = nat
  type RowId = nat
  type Secret = nat   // the text of a key
  type Hash = nat

  datatype Row = Row(tenant: TenantId, hash: Hash, createdAt: int, revokedAt: Option<int>)

  /** SHA-256, of which only collision freedom is used. */
  ghost predicate Injective(hash: Secret -> Hash) {
    forall x, y :: hash(x) == hash(y) ==> x == y
  }

  // ----- the table -----

  predicate Live(rows: map<RowId, Row>, id: RowId, h: Hash) {
    id in rows && rows[id].hash == h && rows[id].revokedAt.None?
  }

  /** findOne by hash among the rows that are not revoked. */
  ghost function Resolve(rows: map<RowId, Row>, h: Hash): Option<TenantId> {
    if exists id :: Live(rows, id, h) then
      var id :| Live(rows, id, h);
      Some(rows[id].tenant)
    else None
  }

  predicate Revocable(rows: map<RowId, Row>, id: RowId, tenant: TenantId) {
    id in rows && rows[id].tenant == tenant && rows[id].revokedAt.None?
  }

  datatype Event =
    | Issue(id: RowId, tenant: TenantId, key: Secret, at: int)
    | Revoke(id: RowId, tenant: TenantId, at: int)

  /** Row ids and keys are drawn at random, so neither was seen before. */
  predicate Enabled(rows: map<RowId, Row>, hash: Secret -> Hash, e: Event) {
    e.Issue? ==> e.id !in rows && forall id | id in rows :: rows[id].hash != hash(e.key)
  }

  function Apply(rows: map<RowId, Row>, hash: Secret -> Hash, e: Event): map<RowId, Row> {
    match e
    case Issue(id, tenant, key, at) => rows[id := Row(tenant, hash(key), at, None)]
    case Revoke(id, tenant, at) =>
      if Revocable(rows, id, tenant) then rows[id := rows[id].(revokedAt := Some(at))] else rows
  }

  predicate Legal(hash: Secret -> Hash, run: seq<Event>)
    decreases |run|, 0
  {
    run == [] || (Legal(hash, run[..|run| - 1]) && Enabled(Table(hash, run[..|run| - 1]), hash, run[|run| - 1]))
  }

  /** The table after a history, starting empty. */
  function Table(hash: Secret -> Hash, run: seq<Event>): map<RowId, Row>
    requires Legal(hash, run)
    decreases |run|, 1
  {
    if run == [] then map[] else Apply(Table(hash, run[..|run| - 1]), hash, run[|run| - 1])
  }

  // ----- what a history says -----

  /** Event i issued that key to the tenant. */
  predicate IssuedBy(run: seq<Event>, i: nat, key: Secret, tenant: TenantId) {
    i < |run| && run[i].Issue? && run[i].key == key && run[i].tenant == tenant
  }

  /** The row of event i was revoked later by its own tenant. */
  predicate RevokedAfter(run: seq<Event>, i: nat)
    requires i < |run| && run[i].Issue?
  {
    exists j | i < j < |run| :: run[j].Revoke? && run[j].id == run[i].id && run[j].tenant == run[i].tenant
  }

  predicate Standing(run: seq<Event>, i: nat) {
    i < |run| && run[i].Issue? && !RevokedAfter(run, i)
  }

  /** The table follows the history: the row of each issued key is there, live exactly while it
      stands, and there are no other rows. */
  ghost predicate Follows(rows: map<RowId, Row>, hash: Secret -> Hash, run: seq<Event>) {
    && (forall i | 0 <= i < |run| && run[i].Issue? ::
          && run[i].id in rows && rows[run[i].id].tenant == run[i].tenant && rows[run[i].id].hash == hash(run[i].key)
          && (rows[run[i].id].revokedAt.None? <==> Standing(run, i)))
    && (forall id | id in rows :: exists i :: 0 <= i < |run| && run[i].Issue? && run[i].id == id)
    && (forall x, y | x in rows && y in rows && rows[x].hash == rows[y].hash :: x == y)
  }

  lemma RevokedLater(front: seq<Event>, e: Event, i: nat)
    requires i < |front| && front[i].Issue?
    ensures Standing(front + [e], i) <==>
              Standing(front, i) && !(e.Revoke? && e.id == front[i].id && e.tenant == front[i].tenant)
  {
    var run := front + [e];
    if RevokedAfter(front, i) {
      var j :| i < j < |front| && front[j].Revoke? && front[j].id == front[i].id && front[j].tenant == front[i].tenant;
      assert run[j] == front[j];
    }
    if e.Revoke? && e.id == front[i].id && e.tenant == front[i].tenant { assert run[|front|] == e; }
  }

  lemma IssueFollows(rows: map<RowId, Row>, hash: Secret -> Hash, front: seq<Event>, e: Event)
    requires Follows(rows, hash, front) && Enabled(rows, hash, e) && e.Issue?
    ensures Follows(Apply(rows, hash, e), hash, front + [e])
  {
    var run, t := front + [e], Apply(rows, hash, e);
    forall i | 0 <= i < |run| && run[i].Issue?
      ensures run[i].id in t && t[run[i].id].tenant == run[i].tenant && t[run[i].id].hash == hash(run[i].key)
      ensures t[run[i].id].revokedAt.None? <==> Standing(run, i)
    {
      if i < |front| { RevokedLater(front, e, i); assert run[i] == front[i]; }
    }
    forall id | id in t ensures exists i :: 0 <= i < |run| && run[i].Issue? && run[i].id == id {
      if id in rows {
        var i :| 0 <= i < |front| && front[i].Issue? && front[i].id == id;
        assert run[i] == front[i];
      } else {
        assert run[|front|] == e;
      }
    }
  }

  lemma RevokeFollows(rows: map<RowId, Row>, hash: Secret -> Hash, front: seq<Event>, e: Event)
    requires Follows(rows, hash, front) && e.Revoke?
    ensures Follows(Apply(rows, hash, e), hash, front + [e])
  {
    var run, t := front + [e], Apply(rows, hash, e);
    forall i | 0 <= i < |run| && run[i].Issue?
      ensures run[i].id in t && t[run[i].id].tenant == run[i].tenant && t[run[i].id].hash == hash(run[i].key)
      ensures t[run[i].id].revokedAt.None? <==> Standing(run, i)
    {
      RevokedLater(front, e, i);
      assert run[i] == front[i];
    }
    forall id | id in t ensures exists i :: 0 <= i < |run| && run[i].Issue? && run[i].id == id {
      var i :| 0 <= i < |front| && front[i].Issue? && front[i].id == id;
      assert run[i] == front[i];
    }
  }

  lemma {:induction false} TableFollows(hash: Secret -> Hash, run: seq<Event>)
    requires Legal(hash, run)
    ensures Follows(Table(hash, run), hash, run)
    decreases |run|
  {
    if run != [] {
      var front, e := run[..|run| - 1], run[|run| - 1];
      TableFollows(hash, front);
      assert run == front + [e];
      hide Follows, Apply, Enabled;
      if e.Issue? {
        IssueFollows(Table(hash, front), hash, front, e);
      } else {
        RevokeFollows(Table(hash, front), hash, front, e);
      }
    }
  }

  /** A key resolves to a tenant exactly when it was issued to that tenant and not revoked. */
  lemma ResolvesExactly(hash: Secret -> Hash, run: seq<Event>, key: Secret, tenant: TenantId)
    requires Injective(hash) && Legal(hash, run)
    ensures Resolve(Table(hash, run), hash(key)) == Some(tenant)
            <==> exists i :: IssuedBy(run, i, key, tenant) && Standing(run, i)
  {
    TableFollows(hash, run);
    var rows := Table(hash, run);
    if Resolve(rows, hash(key)) == Some(tenant) {
      var id :| Live(rows, id, hash(key)) && rows[id].tenant == tenant;
      var i :| 0 <= i < |run| && run[i].Issue? && run[i].id == id;
      assert IssuedBy(run, i, key, tenant) && Standing(run, i);
    }
    if i: nat :| IssuedBy(run, i, key, tenant) && Standing(run, i) {
      assert Live(rows, run[i].id, hash(key));
    }
  }

  /** A revocation succeeds at most once in a history, and only for the tenant the key was issued to. */
  lemma RevokedOnceByOwner(hash: Secret -> Hash, run: seq<Event>, i: nat, j: nat)
    requires Legal(hash, run) && i < |run| && j < |run| && run[i].Issue?
    requires run[j].Revoke? && run[j].id == run[i].id && i < j
    requires Legal(hash, run[..j])
    ensures Revocable(Table(hash, run[..j]), run[j].id, run[j].tenant)
            <==> run[j].tenant == run[i].tenant
                 && forall k | i < k < j ::
                       !(run[k].Revoke? && run[k].id == run[i].id && run[k].tenant == run[i].tenant)
  {
    var front := run[..j];
    TableFollows(hash, front);
    assert front[i] == run[i];
    assert RevokedAfter(front, i) <==>
           exists k | i < k < j :: run[k].Revoke? && run[k].id == run[i].id && run[k].tenant == run[i].tenant by {
      if RevokedAfter(front, i) {
        var k :| i < k < |front| && front[k].Revoke? && front[k].id == front[i].id
            && front[k].tenant == front[i].tenant;
        assert run[k] == front[k];
      }
      if k :| i < k < j && run[k].Revoke? && run[k].id == run[i].id && run[k].tenant == run[i].tenant {
        assert front[k] == run[k];
      }
    }
  }

  // ----- the service as code -----

  /** The service over its two tables; a key row refers to a tenant row, and none is ever removed. */
  class ApiKeyService<T> {
    var keys: map<RowId, Row>
    var tenants: map<TenantId, T>
    const hash: Secret -> Hash
    ghost var history: seq<Event>

    ghost predicate Valid()
      reads this
    {
      Legal(hash, history) && keys == Table(hash, history) && forall id | id in keys :: keys[id].tenant in tenants
    }

    constructor (hash: Secret -> Hash)
      ensures Valid() && history == [] && tenants == map[] && this.hash == hash
    {
      this.hash, keys, tenants, history := hash, map[], map[], [];
    }

    /** tenants.save: a new tenant, or new settings of one. */
    method SaveTenant(id: TenantId, row: T)
      requires Valid()
      modifies this`tenants
      ensures Valid() && tenants == old(tenants)[id := row]
    {
      tenants := tenants[id := row];
    }

    ghost method Note(e: Event, before: map<RowId, Row>)
      requires Legal(hash, history) && before == Table(hash, history)
      requires Enabled(before, hash, e) && keys == Apply(before, hash, e)
      requires forall id | id in keys :: keys[id].tenant in tenants
      modifies this`history
      ensures Valid() && history == old(history) + [e]
    {
      history := history + [e];
      assert history[..|history| - 1] == old(history);
    }

    /** issue: id and key come from the random source; the foreign key refuses an unknown tenant. */
    method Issue(tenant: TenantId, id: RowId, key: Secret, now: int) returns (issued: bool)
      requires Valid() && Enabled(keys, hash, Event.Issue(id, tenant, key, now))
      modifies this`keys, this`history
      ensures Valid() && issued == (tenant in tenants)
      ensures issued ==> history == old(history) + [Event.Issue(id, tenant, key, now)]
      ensures issued && Injective(hash) ==> Resolve(keys, hash(key)) == Some(tenant)
      ensures !issued ==> keys == old(keys) && history == old(history)
    {
      issued := tenant in tenants;
      if !issued { return; }
      ghost var before := keys;
      keys := keys[id := Row(tenant, hash(key), now, None)];
      Note(Event.Issue(id, tenant, key, now), before);
      if Injective(hash) {
        assert IssuedBy(history, |history| - 1, key, tenant) && Standing(history, |history| - 1);
        ResolvesExactly(hash, history, key, tenant);
      }
    }

    /** revoke: an update guarded by owner and by not being revoked yet. */
    method Revoke(id: RowId, tenant: TenantId, now: int) returns (done: bool)
      requires Valid()
      modifies this`keys, this`history
      ensures Valid() && history == old(history) + [Event.Revoke(id, tenant, now)]
      ensures done == Revocable(old(keys), id, tenant)
      ensures done ==> id in keys && !Live(keys, id, keys[id].hash)
      ensures !done ==> keys == old(keys)
    {
      ghost var before := keys;
      done := id in keys && keys[id].tenant == tenant && keys[id].revokedAt.None?;
      if done {
        keys := keys[id := keys[id].(revokedAt := Some(now))];
      }
      Note(Event.Revoke(id, tenant, now), before);
    }

    /** keys.findOne: a search for a live row with that hash. */
    method FindLive(h: Hash) returns (owner: Option<TenantId>)
      requires Valid()
      ensures owner == Resolve(keys, h)
    {
      TableFollows(hash, history);
      var left := keys.Keys;
      while left != {}
        invariant left <= keys.Keys && forall id | Live(keys, id, h) :: id in left
        decreases |left|
      {
        var id :| id in left;
        if Live(keys, id, h) { return Some(keys[id].tenant); }
        left := left - {id};
      }
      return None;
    }

    /** resolveTenant: the row, as it is now, of the tenant that the presented key was issued to, if
        the key still stands. */
    method ResolveTenant(key: Secret) returns (row: Option<T>)
      requires Valid()
      ensures var owner := Resolve(keys, hash(key));
              if owner.Some? then owner.value in tenants && row == Some(tenants[owner.value]) else row == None
    {
      var owner := FindLive(hash(key));
      if owner.None? { return None; }
      assert exists id :: Live(keys, id, hash(key)) && keys[id].tenant == owner.value;
      return if owner.value in tenants then Some(tenants[owner.value]) else None;
    }
  }
}
