/** Tenant isolation by row-level security over a shared pool of connections: runScoped leaves a
    session-level setting behind, withTenantScope sets one for its transaction only, and the
    policies filter every statement by the setting then in force. */
module TenantScope {
  import opened Wrappers

  type TenantId = nat
  type ConnId = nat
  type OpId = nat
  type RowId = nat
  type Token = nat

  datatype Table = Sessions | DocumentSessions | AuditLogs | ConsentRecords | DiscardLog | VerificationRecords

  datatype Key = Key(table: Table, id: RowId)

  datatype Row = Row(tenant: TenantId, token: Option<Token>, data: nat)

  /** app.tenant_id on a connection: never set, reset to the empty string, or a tenant. */
  datatype Setting = Unset | Empty | Is(tenant: TenantId)

  /** `own` is the transaction-local setting; `user` the operation that holds the connection. */
  datatype Conn = Conn(session: Setting, own: Option<TenantId>, user: Option<OpId>)

  datatype Style = SessionLevel | TransactionLocal

  datatype Stmt = Select(table: Table) | Save(key: Key, row: Row)

  datatype Result = Rows(rows: map<Key, Row>) | Saved | PolicyViolation | DuplicateKey | CastError

  datatype Stage = Connected | Scoped | Released

  datatype Op = Op(tenant: TenantId, conn: ConnId, style: Style, stage: Stage, results: seq<Result>)

  /** `owner` remembers which tenant first used an id. */
  datatype State = State(rows: map<Key, Row>, conns: map<ConnId, Conn>, ops: map<OpId, Op>, owner: map<Key, TenantId>)

  datatype Event =
    | Connect(op: OpId, tenant: TenantId, conn: ConnId, style: Style)
    | SetScope(op: OpId)
    | Query(op: OpId, stmt: Stmt)
    | Release(op: OpId)
    | Consume(table: Table, token: Token)

  // ----- policies -----

  /** The transaction's own setting hides the session's. */
  function Effective(c: Conn): Setting {
    if c.own.Some? then Is(c.own.value) else c.session
  }

  /** What a policy makes of the setting. The hardened ones read '' as no tenant at all; the one
      on verification_records was left alone and cannot cast it. */
  datatype Reach = Nobody | Broken | Tenant(t: TenantId)

  function ReachOf(table: Table, s: Setting): Reach {
    match s
    case Is(t) => Tenant(t)
    case Unset => Nobody
    case Empty => if table.VerificationRecords? then Broken else Nobody
  }

  function Visible(rows: map<Key, Row>, table: Table, t: TenantId): map<Key, Row> {
    map k | k in rows && k.table == table && rows[k].tenant == t :: rows[k]
  }

  /** One statement under a setting: USING filters what it sees, WITH CHECK what it writes. */
  function Execute(rows: map<Key, Row>, s: Setting, stmt: Stmt): (map<Key, Row>, Result) {
    match stmt
    case Select(table) =>
      (match ReachOf(table, s)
       case Nobody => (rows, Rows(map[]))
       case Broken => (rows, CastError)
       case Tenant(t) => (rows, Rows(Visible(rows, table, t))))
    case Save(key, row) =>
      (match ReachOf(key.table, s)
       case Nobody => (rows, PolicyViolation)
       case Broken => (rows, CastError)
       case Tenant(t) =>
         if row.tenant != t then (rows, PolicyViolation)
         else if key in rows && rows[key].tenant != t then (rows, DuplicateKey)
         else (rows[key := row], Saved))
  }

  function WithToken(rows: map<Key, Row>, table: Table, token: Token): set<Key> {
    set k | k in rows && k.table == table && rows[k].token == Some(token)
  }

  // ----- steps -----

  predicate Active(s: State, op: OpId) {
    op in s.ops && !s.ops[op].stage.Released? && s.ops[op].conn in s.conns
  }

  predicate Enabled(s: State, e: Event) {
    match e
    case Connect(op, _, conn, _) => op !in s.ops && (conn in s.conns ==> s.conns[conn].user.None?)
    case SetScope(op) => Active(s, op) && s.ops[op].stage.Connected?
    case Query(op, stmt) =>
      // a row id is drawn at random by the tenant that uses it
      && Active(s, op) && s.ops[op].stage.Scoped?
      && (stmt.Save? && stmt.key in s.owner ==> s.owner[stmt.key] == s.ops[op].tenant)
    case Release(op) => Active(s, op)
    case Consume(table, _) => table.Sessions? || table.DocumentSessions?
  }

  /** A connection from the pool keeps the session setting that its last user left. */
  function Taken(s: State, conn: ConnId, op: OpId): Conn {
    Conn(if conn in s.conns then s.conns[conn].session else Unset, None, Some(op))
  }

  /** At the end of a transaction its own setting is gone; a session that never had one is left
      with the empty string. */
  function Freed(c: Conn): Conn {
    Conn(if c.own.Some? && c.session.Unset? then Empty else c.session, None, None)
  }

  function Apply(s: State, e: Event): State
    requires Enabled(s, e)
  {
    match e
    case Connect(op, tenant, conn, style) =>
      s.(conns := s.conns[conn := Taken(s, conn, op)], ops := s.ops[op := Op(tenant, conn, style, Connected, [])])
    case SetScope(op) =>
      var o := s.ops[op];
      var c := s.conns[o.conn];
      s.(conns := s.conns[o.conn := if o.style.SessionLevel? then c.(session := Is(o.tenant))
          else c.(own := Some(o.tenant))],
         ops := s.ops[op := o.(stage := Scoped)])
    case Query(op, stmt) =>
      var o := s.ops[op];
      var x := Execute(s.rows, Effective(s.conns[o.conn]), stmt);
      s.(rows := x.0, ops := s.ops[op := o.(results := o.results + [x.1])],
         owner := if stmt.Save? then s.owner[stmt.key := o.tenant] else s.owner)
    case Release(op) =>
      var o := s.ops[op];
      s.(conns := s.conns[o.conn := Freed(s.conns[o.conn])], ops := s.ops[op := o.(stage := Released)])
    case Consume(table, token) => s.(rows := s.rows - WithToken(s.rows, table, token))
  }

  // ----- invariant: every scoped statement runs under its own tenant -----

  predicate OpOk(s: State, op: OpId)
    requires op in s.ops
  {
    var o := s.ops[op];
    !o.stage.Released? ==>
      && o.conn in s.conns && s.conns[o.conn].user == Some(op)
      && (o.stage.Connected? ==> s.conns[o.conn].own.None?)
      && (o.stage.Scoped? ==> if o.style.SessionLevel? then s.conns[o.conn].session == Is(o.tenant)
            && s.conns[o.conn].own.None?
                              else s.conns[o.conn].own == Some(o.tenant))
  }

  predicate ConnOk(s: State, c: ConnId)
    requires c in s.conns
  {
    match s.conns[c].user
    case Some(op) => op in s.ops && s.ops[op].conn == c && !s.ops[op].stage.Released?
    case None => s.conns[c].own.None?
  }

  ghost predicate Inv(s: State) {
    && (forall op | op in s.ops :: OpOk(s, op))
    && (forall c | c in s.conns :: ConnOk(s, c))
    && (forall k | k in s.rows :: k in s.owner && s.owner[k] == s.rows[k].tenant)
  }

  lemma StepKeepsInv(s: State, e: Event)
    requires Inv(s) && Enabled(s, e)
    ensures Inv(Apply(s, e))
  {
    var t := Apply(s, e);
    match e
    case Query(op, stmt) => QueryKeepsInv(s, op, stmt);
    case Consume(_, _) =>
      forall op | op in t.ops ensures OpOk(t, op) { assert OpOk(s, op); }
    case _ =>
      forall op | op in t.ops ensures OpOk(t, op) { if op in s.ops { assert OpOk(s, op); } }
      forall c | c in t.conns ensures ConnOk(t, c) { if c in s.conns { assert ConnOk(s, c); } }
  }

  lemma QueryKeepsInv(s: State, op: OpId, stmt: Stmt)
    requires Inv(s) && Enabled(s, Query(op, stmt))
    ensures Inv(Apply(s, Query(op, stmt)))
  {
  }

  // ----- one statement -----

  /** The answer to a SELECT over the table holds exactly its rows of that tenant, as they are. */
  predicate Answers(x: Result, rows: map<Key, Row>, table: Table, tenant: TenantId) {
    && x.Rows?
    && (forall k | k in x.rows :: k.table == table && k in rows && rows[k].tenant == tenant && x.rows[k] == rows[k])
    && (forall k | k in rows && k.table == table && rows[k].tenant == tenant :: k in x.rows)
  }

  /** A scoped statement is run under its operation's tenant. A SELECT answers with exactly the rows of
      that tenant and changes nothing; a row of that tenant is written, and is there afterwards among
      rows that are otherwise as they were; a row for any other tenant is refused, and nothing changes. */
  lemma ScopedStatement(s: State, op: OpId, stmt: Stmt)
    requires Inv(s) && Enabled(s, Query(op, stmt))
    ensures var t, tenant := Apply(s, Query(op, stmt)), s.ops[op].tenant;
            && Effective(s.conns[s.ops[op].conn]) == Is(tenant)
            && op in t.ops && |t.ops[op].results| == |s.ops[op].results| + 1
            && s.ops[op].results <= t.ops[op].results
            && var x := t.ops[op].results[|s.ops[op].results|];
            && (stmt.Select? ==> Answers(x, s.rows, stmt.table, tenant) && t.rows == s.rows)
            && (stmt.Save? && stmt.row.tenant == tenant ==> x == Saved && t.rows == s.rows[stmt.key := stmt.row])
            && (stmt.Save? && stmt.row.tenant != tenant ==> x == PolicyViolation && t.rows == s.rows)
            && (stmt.Save? && stmt.key in s.rows ==> s.rows[stmt.key].tenant == tenant)
            && t.conns == s.conns && t.ops == s.ops[op := t.ops[op]]
  {
  }

  /** No tenant's row is changed by a scoped statement of another. */
  lemma OthersUnwritten(s: State, op: OpId, stmt: Stmt)
    requires Inv(s) && Enabled(s, Query(op, stmt))
    ensures var t, tenant := Apply(s, Query(op, stmt)), s.ops[op].tenant;
            && (forall k | k in s.rows && s.rows[k].tenant != tenant :: k in t.rows && t.rows[k] == s.rows[k])
            && (forall k | k in t.rows && t.rows[k].tenant != tenant :: k in s.rows)
  {
    ScopedStatement(s, op, stmt);
    hide Inv, Enabled, Apply;
  }

  /** Outside a scope the connection decides. After a session-level scope a bare SELECT sees the
      rows of the tenant that left, and a bare write for that tenant goes through; after a
      transaction-local one it depends on what the connection's earlier users left: a tenant, or
      nothing, in which case there is nothing to see and no write goes through, and the table whose
      policy was not hardened raises a cast error. */
  lemma LeftoverSetting(s: State, op: OpId, table: Table, k: Key, row: Row)
    requires Inv(s) && Enabled(s, Release(op)) && s.ops[op].stage.Scoped? && k !in s.rows
    ensures var t, o := Apply(s, Release(op)), s.ops[op];
            var left := t.conns[o.conn];
            var before := s.conns[o.conn].session;
            var owner := if o.style.SessionLevel? then Some(o.tenant)
                         else if before.Is? then Some(before.tenant) else None;
            var seen, write := Execute(t.rows, Effective(left), Select(table)),
                Execute(t.rows, Effective(left), Save(k, row));
            && t.rows == s.rows && left.user.None? && seen.0 == s.rows
            && (owner.Some? ==> Answers(seen.1, s.rows, table, owner.value))
            && (owner.None? ==> seen.1 == if table.VerificationRecords? then CastError else Rows(map[]))
            && (if owner == Some(row.tenant) then write == (s.rows[k := row], Saved)
                else write.0 == s.rows
                     && write.1 == if owner.None? && k.table.VerificationRecords? then CastError else PolicyViolation)
  {
  }

  /** consume_session and consume_document_session: exactly the rows of that table with that token go,
      whosever they are. */
  lemma ConsumeTakes(s: State, table: Table, token: Token, k: Key)
    requires Enabled(s, Consume(table, token))
    ensures var t := Apply(s, Consume(table, token));
            && (k in t.rows <==> k in s.rows && !(k.table == table && s.rows[k].token == Some(token)))
            && (k in t.rows ==> t.rows[k] == s.rows[k])
  {
  }

  // ----- non-interference -----

  /** The event belongs to tenant who: a step of one of its operations, or the consumption of a
      token of one of its rows. */
  predicate Concerns(s: State, e: Event, who: TenantId) {
    match e
    case Connect(_, tenant, _, _) => tenant == who
    case SetScope(op) => op in s.ops && s.ops[op].tenant == who
    case Query(op, _) => op in s.ops && s.ops[op].tenant == who
    case Release(op) => op in s.ops && s.ops[op].tenant == who
    case Consume(table, token) => exists k :: k in WithToken(s.rows, table, token) && s.rows[k].tenant == who
  }

  ghost predicate Legal(s: State, run: seq<Event>)
    decreases |run|
  {
    run == [] || (Enabled(s, run[0]) && Legal(Apply(s, run[0]), run[1..]))
  }

  ghost function Final(s: State, run: seq<Event>): State
    requires Legal(s, run)
    decreases |run|
  {
    if run == [] then s else Final(Apply(s, run[0]), run[1..])
  }

  /** The run with everything that does not concern who taken out. */
  ghost function Purge(s: State, run: seq<Event>, who: TenantId): seq<Event>
    requires Legal(s, run)
    decreases |run|
  {
    if run == [] then []
    else
      var rest := Purge(Apply(s, run[0]), run[1..], who);
      if Concerns(s, run[0], who) then [run[0]] + rest else rest
  }

  /** What who can observe: its rows, and its operations with all their results. */
  function RowsOf(s: State, who: TenantId): map<Key, Row> {
    map k | k in s.rows && s.rows[k].tenant == who :: s.rows[k]
  }

  function OpsOf(s: State, who: TenantId): map<OpId, Op> {
    map op | op in s.ops && s.ops[op].tenant == who :: s.ops[op]
  }

  /** t looks to who like s, and in t nobody else is at work. */
  ghost predicate Alike(s: State, t: State, who: TenantId) {
    && RowsOf(s, who) == RowsOf(t, who) && OpsOf(s, who) == OpsOf(t, who)
    && (forall op | op in t.ops :: t.ops[op].tenant == who)
    && (forall k | k in t.owner :: k in s.owner && t.owner[k] == s.owner[k])
  }

  /** A step of the others is invisible to who. */
  lemma OthersInvisible(s: State, e: Event, who: TenantId)
    requires Inv(s) && Enabled(s, e) && !Concerns(s, e, who)
    ensures RowsOf(Apply(s, e), who) == RowsOf(s, who) && OpsOf(Apply(s, e), who) == OpsOf(s, who)
    ensures forall k | k in s.owner :: k in Apply(s, e).owner && Apply(s, e).owner[k] == s.owner[k]
  {
  }

  /** A step of who can be taken in both worlds, and shows who the same. */
  lemma SameStep(s: State, t: State, e: Event, who: TenantId)
    requires Inv(s) && Inv(t) && Alike(s, t, who) && Enabled(s, e) && Concerns(s, e, who)
    ensures Enabled(t, e) && Alike(Apply(s, e), Apply(t, e), who)
  {
    match e
    case Connect(op, tenant, conn, style) => SameConnect(s, t, op, conn, style, who);
    case SetScope(op) => SameOp(s, t, op, who);
    case Query(op, stmt) => SameQuery(s, t, op, stmt, who);
    case Release(op) => SameOp(s, t, op, who);
    case Consume(table, token) => SameConsume(s, t, table, token, who);
  }

  /** An operation of who is the same in both worlds, and it is at work in both. */
  lemma SameOp(s: State, t: State, op: OpId, who: TenantId)
    requires Inv(s) && Inv(t) && Alike(s, t, who) && Active(s, op) && s.ops[op].tenant == who
    ensures Active(t, op) && t.ops[op] == s.ops[op]
    ensures Enabled(s, SetScope(op)) ==> Alike(Apply(s, SetScope(op)), Apply(t, SetScope(op)), who)
    ensures Alike(Apply(s, Release(op)), Apply(t, Release(op)), who)
  {
    assert op in OpsOf(s, who);
    assert op in OpsOf(t, who) && OpsOf(t, who)[op] == OpsOf(s, who)[op];
    assert OpOk(t, op);
    ViewMoves(s, t, op, s.ops[op].(stage := Scoped), who);
    ViewMoves(s, t, op, s.ops[op].(stage := Released), who);
  }

  lemma ViewMoves(s: State, t: State, op: OpId, o: Op, who: TenantId)
    requires OpsOf(s, who) == OpsOf(t, who) && o.tenant == who
    requires (op in s.ops ==> s.ops[op].tenant == who) && (op in t.ops ==> t.ops[op].tenant == who)
    ensures forall u: State, v: State | u.ops == s.ops[op := o]
              && v.ops == t.ops[op := o] :: OpsOf(u, who) == OpsOf(v, who)
  {
    forall u: State, v: State | u.ops == s.ops[op := o] && v.ops == t.ops[op := o]
      ensures OpsOf(u, who) == OpsOf(v, who) {
      assert OpsOf(u, who) == OpsOf(s, who)[op := o];
      assert OpsOf(v, who) == OpsOf(t, who)[op := o];
    }
  }

  lemma BusyInBoth(s: State, t: State, conn: ConnId, who: TenantId)
    requires Inv(s) && Inv(t) && Alike(s, t, who) && conn in t.conns && t.conns[conn].user.Some?
    ensures conn in s.conns && s.conns[conn].user == t.conns[conn].user
  {
    var op := t.conns[conn].user.value;
    assert ConnOk(t, conn);
    assert op in OpsOf(t, who) && OpsOf(s, who)[op] == OpsOf(t, who)[op];
    assert OpOk(s, op);
  }

  lemma SameConnect(s: State, t: State, op: OpId, conn: ConnId, style: Style, who: TenantId)
    requires Inv(s) && Inv(t) && Alike(s, t, who) && Enabled(s, Connect(op, who, conn, style))
    ensures Enabled(t, Connect(op, who, conn, style))
    ensures Alike(Apply(s, Connect(op, who, conn, style)), Apply(t, Connect(op, who, conn, style)), who)
  {
    assert OpsOf(t, who) == t.ops;
    if conn in t.conns && t.conns[conn].user.Some? { BusyInBoth(s, t, conn, who); }
    ViewMoves(s, t, op, Op(who, conn, style, Connected, []), who);
  }

  lemma SameQuery(s: State, t: State, op: OpId, stmt: Stmt, who: TenantId)
    requires Inv(s) && Inv(t) && Alike(s, t, who) && Enabled(s, Query(op, stmt)) && s.ops[op].tenant == who
    ensures Enabled(t, Query(op, stmt)) && Alike(Apply(s, Query(op, stmt)), Apply(t, Query(op, stmt)), who)
  {
    SameOp(s, t, op, who);
    var u, v := Apply(s, Query(op, stmt)), Apply(t, Query(op, stmt));
    SameResult(s, t, op, stmt, who);
    ViewMoves(s, t, op, u.ops[op], who);
    ScopedStatement(s, op, stmt);
    ScopedStatement(t, op, stmt);
    SameWrites(s, t, stmt, who);
    hide Inv, OpsOf, RowsOf, Execute;
  }

  /** Both worlds give the same answer. */
  lemma SameResult(s: State, t: State, op: OpId, stmt: Stmt, who: TenantId)
    requires Inv(s) && Inv(t) && RowsOf(s, who) == RowsOf(t, who)
    requires Enabled(s, Query(op, stmt)) && s.ops[op].tenant == who
    requires Enabled(t, Query(op, stmt)) && t.ops[op] == s.ops[op]
    ensures Apply(s, Query(op, stmt)).ops[op] == Apply(t, Query(op, stmt)).ops[op]
  {
    ScopedStatement(s, op, stmt);
    ScopedStatement(t, op, stmt);
    if stmt.Select? { SameSelect(s, t, stmt.table, who); }
    hide Inv, RowsOf;
  }

  lemma SameSelect(s: State, t: State, table: Table, who: TenantId)
    requires RowsOf(s, who) == RowsOf(t, who)
    ensures Visible(s.rows, table, who) == Visible(t.rows, table, who)
  {
    assert Visible(s.rows, table, who) == map k | k in RowsOf(s, who) && k.table == table :: RowsOf(s, who)[k];
    assert Visible(t.rows, table, who) == map k | k in RowsOf(t, who) && k.table == table :: RowsOf(t, who)[k];
  }

  /** The rows that a tenant sees after one of its own statements. */
  lemma WritesShow(s: State, stmt: Stmt, who: TenantId, u: State)
    requires u.rows == Execute(s.rows, Is(who), stmt).0
    requires stmt.Save? && stmt.key in s.rows ==> s.rows[stmt.key].tenant == who
    ensures RowsOf(u, who)
            == if stmt.Save? && stmt.row.tenant == who then RowsOf(s, who)[stmt.key := stmt.row] else RowsOf(s, who)
  {
  }

  lemma SameWrites(s: State, t: State, stmt: Stmt, who: TenantId)
    requires RowsOf(s, who) == RowsOf(t, who)
    requires stmt.Save? ==>
               (stmt.key in s.rows ==> s.rows[stmt.key].tenant == who)
               && (stmt.key in t.rows ==> t.rows[stmt.key].tenant == who)
    ensures forall u: State, v: State | u.rows == Execute(s.rows, Is(who), stmt).0
              && v.rows == Execute(t.rows, Is(who), stmt).0
              :: RowsOf(u, who) == RowsOf(v, who)
  {
    hide Execute, RowsOf;
    forall u: State, v: State | u.rows == Execute(s.rows, Is(who), stmt).0 && v.rows == Execute(t.rows, Is(who), stmt).0
      ensures RowsOf(u, who) == RowsOf(v, who)
    {
      WritesShow(s, stmt, who, u);
      WritesShow(t, stmt, who, v);
    }
  }

  lemma SameConsume(s: State, t: State, table: Table, token: Token, who: TenantId)
    requires Alike(s, t, who) && Enabled(s, Consume(table, token))
    ensures Alike(Apply(s, Consume(table, token)), Apply(t, Consume(table, token)), who)
  {
    var u, v := Apply(s, Consume(table, token)), Apply(t, Consume(table, token));
    ConsumeRows(s, table, token, who);
    ConsumeRows(t, table, token, who);
    assert OpsOf(u, who) == OpsOf(s, who) && OpsOf(v, who) == OpsOf(t, who);
    hide Enabled, RowsOf, Apply;
  }

  /** Of a tenant's own rows, exactly those of the table with the token go. */
  lemma ConsumeRows(s: State, table: Table, token: Token, who: TenantId)
    requires Enabled(s, Consume(table, token))
    ensures var t, mine := Apply(s, Consume(table, token)), RowsOf(s, who);
            && RowsOf(t, who) == mine - (set k | k in mine && k.table == table && mine[k].token == Some(token))
            && t.ops == s.ops && t.owner == s.owner
  {
  }

  /** Non-interference: whatever the others do on the shared connections, the tenant's rows and all
      results of its operations are those of the run in which nobody else takes part. */
  lemma {:induction false} NonInterference(s: State, t: State, run: seq<Event>, who: TenantId)
    requires Inv(s) && Inv(t) && Alike(s, t, who) && Legal(s, run)
    ensures Legal(t, Purge(s, run, who))
    ensures RowsOf(Final(s, run), who) == RowsOf(Final(t, Purge(s, run, who)), who)
    ensures OpsOf(Final(s, run), who) == OpsOf(Final(t, Purge(s, run, who)), who)
    decreases |run|
  {
    if run != [] {
      hide Inv, Enabled, Apply, Alike, Concerns;
      var e := run[0];
      StepKeepsInv(s, e);
      if Concerns(s, e, who) {
        SameStep(s, t, e, who);
        StepKeepsInv(t, e);
        NonInterference(Apply(s, e), Apply(t, e), run[1..], who);
        var rest := Purge(Apply(s, e), run[1..], who);
        assert ([e] + rest)[1..] == rest;
      } else {
        StillAlone(s, t, e, who);
        NonInterference(Apply(s, e), t, run[1..], who);
      }
    } else {
      assert Alike(s, t, who);
    }
  }

  lemma StillAlone(s: State, t: State, e: Event, who: TenantId)
    requires Inv(s) && Alike(s, t, who) && Enabled(s, e) && !Concerns(s, e, who)
    ensures Alike(Apply(s, e), t, who)
  {
    OthersInvisible(s, e, who);
  }

  /** The same from the moment the service starts, when no connection is open yet. */
  lemma Isolation(rows: map<Key, Row>, run: seq<Event>, who: TenantId)
    requires Legal(Started(rows), run)
    ensures var alone := Purge(Started(rows), run, who);
            && Legal(Started(rows), alone)
            && RowsOf(Final(Started(rows), run), who) == RowsOf(Final(Started(rows), alone), who)
            && OpsOf(Final(Started(rows), run), who) == OpsOf(Final(Started(rows), alone), who)
  {
    assert Inv(Started(rows));
    NonInterference(Started(rows), Started(rows), run, who);
  }

  function Started(rows: map<Key, Row>): State {
    State(rows, map[], map[], map k | k in rows :: rows[k].tenant)
  }

  // ----- as code -----

  predicate ByOther(e: Event, op: OpId) {
    match e
    case Connect(o, _, _, _) => o != op
    case SetScope(o) => o != op
    case Query(o, _) => o != op
    case Release(o) => o != op
    case Consume(_, _) => true
  }

  predicate OnlyOwn(results: seq<Result>, tenant: TenantId) {
    forall i, k | 0 <= i < |results| && results[i].Rows? && k in results[i].rows :: results[i].rows[k].tenant == tenant
  }

  class Database {
    var s: State
    ghost var faults: nat          // operations that lost their connection before their scope was set
    ghost var scoped: set<OpId>    // operations whose scope was set

    ghost predicate Valid()
      reads this
    {
      Inv(s)
    }

    method Step(e: Event)
      requires Valid() && Enabled(s, e)
      modifies this`s, this`scoped
      ensures Valid() && s == Apply(old(s), e) && scoped == old(scoped) + if e.SetScope? then {e.op} else {}
    {
      StepKeepsInv(s, e);
      s := Apply(s, e);
      if e.SetScope? { scoped := scoped + {e.op}; }
    }

    /** The other operations run for a while. */
    method Wait(op: OpId)
      requires Valid() && op in s.ops
      modifies this`s, this`scoped
      ensures Valid() && op in s.ops && s.ops[op] == old(s.ops[op]) && (op in scoped <==> op in old(scoped))
    {
      hide Inv, Enabled;
      var n :| n >= 0;
      for i := 0 to n
        invariant Valid() && op in s.ops && s.ops[op] == old(s.ops[op]) && (op in scoped <==> op in old(scoped))
      {
        var e: Event := *;
        if Enabled(s, e) && ByOther(e, op) { Step(e); }
      }
    }

    /** Any number of statements of a callback; it may stop early by throwing. */
    method Callback(op: OpId, ghost tenant: TenantId)
      requires Valid() && op in s.ops && s.ops[op].stage.Scoped?
      requires s.ops[op].tenant == tenant && OnlyOwn(s.ops[op].results, tenant)
      modifies this`s, this`scoped
      ensures Valid() && op in s.ops && s.ops[op] == old(s.ops[op]).(results := s.ops[op].results)
      ensures OnlyOwn(s.ops[op].results, tenant) && (op in scoped <==> op in old(scoped))
    {
      var n :| n >= 0;
      for i := 0 to n
        invariant Valid() && op in s.ops && s.ops[op] == old(s.ops[op]).(results := s.ops[op].results)
        invariant OnlyOwn(s.ops[op].results, tenant) && (op in scoped <==> op in old(scoped))
      {
        Wait(op);
        var stmt: Stmt := *;
        if Enabled(s, Query(op, stmt)) { Run(op, tenant, stmt); }
      }
    }

    method Run(op: OpId, ghost tenant: TenantId, stmt: Stmt)
      requires Valid() && Enabled(s, Query(op, stmt))
      requires s.ops[op].tenant == tenant && OnlyOwn(s.ops[op].results, tenant)
      modifies this`s, this`scoped
      ensures Valid() && op in s.ops && s.ops[op] == old(s.ops[op]).(results := s.ops[op].results)
      ensures |s.ops[op].results| == |old(s.ops[op].results)| + 1 && OnlyOwn(s.ops[op].results, tenant)
      ensures scoped == old(scoped)
      ensures var x := s.ops[op].results[|old(s.ops[op].results)|];
              && (stmt.Select? ==> Answers(x, old(s.rows), stmt.table, tenant) && s.rows == old(s.rows))
              && (stmt.Save? && stmt.row.tenant == tenant ==>
                    x == Saved && s.rows == old(s.rows)[stmt.key := stmt.row])
              && (stmt.Save? && stmt.row.tenant != tenant ==> x == PolicyViolation && s.rows == old(s.rows))
    {
      ScopedStatement(s, op, stmt);
      hide Inv, Execute;
      Step(Query(op, stmt));
    }

    /** runScoped, and withTenantScope inside its transaction: connect, set the scope, run the
        callback, and give the connection back whatever happened. */
    method Scope(op: OpId, tenant: TenantId, conn: ConnId, style: Style) returns (results: seq<Result>)
      requires Valid() && Enabled(s, Connect(op, tenant, conn, style))
      modifies this
      ensures Valid() && op in s.ops && s.ops[op] == Op(tenant, conn, style, Released, results)
      ensures OnlyOwn(results, tenant) && conn in s.conns && s.conns[conn].user.None?
      ensures if faults == old(faults) then op in scoped else old(faults) < faults
    {
      Step(Connect(op, tenant, conn, style));
      Wait(op);
      var threw: bool := *;
      if !threw {
        Mine(s, op);
        Step(SetScope(op));
        Callback(op, tenant);
        Wait(op);
      } else {
        faults := faults + 1;
      }
      Mine(s, op);
      results := s.ops[op].results;
      Step(Release(op));
    }
  }

  lemma Mine(s: State, op: OpId)
    requires Inv(s) && op in s.ops && !s.ops[op].stage.Released?
    ensures Active(s, op)
  {
  }
}
