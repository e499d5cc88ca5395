/** Monthly quota on a shared Redis counter, under every interleaving of concurrent calls:
    INCR first, PEXPIRE by whoever counted 1, then either keep the unit or DECR it back. */
module Quota {
  import opened Wrappers
  import opened Calendar
  import Redis
  import opened Sets

  type TenantId = nat
  type CallId = nat

  const FORTY_DAYS_MS: int := 40 * MS_PER_DAY

  datatype Plan = Free | Pro | Scale

  function MonthlyQuota(p: Plan): nat {
    match p
    case Free => 100
    case Pro => 10_000
    case Scale => 100_000
  }

  /** usage:<tenant>:<year>-<month> */
  datatype Key = Key(tenant: TenantId, month: Month)

  /** Where a call to incrementAndCheck stands; `n` is what its INCR returned. */
  datatype Pc =
    | Begun                      // key computed, INCR not yet done
    | Counted(n: int)            // INCR returned 1, PEXPIRE still to come
    | Ready(n: int)              // only the comparison with the limit is left
    | Won(n: int)                // returned allowed
    | RolledBack(n: int)         // DECR done, returned not allowed
    | Crashed(last: Option<int>) // process gone; the last INCR result, if any

  datatype Call = Call(key: Key, limit: nat, begunAt: int, pc: Pc)

  datatype State = State(plans: map<TenantId, Plan>, db: map<Key, Redis.Cell>, calls: map<CallId, Call>)

  datatype Event =
    | ChangePlan(tenant: TenantId, plan: Plan)
    | Begin(c: CallId, tenant: TenantId, plan: Plan)   // the plan as it was read a moment ago
    | Count(c: CallId)
    | Arm(c: CallId)
    | Finish(c: CallId)
    | RollBack(c: CallId)
    | Crash(c: CallId)

  /** The INCR result a call has seen. */
  function Seen(pc: Pc): Option<int> {
    match pc
    case Begun => None
    case Counted(n) => Some(n)
    case Ready(n) => Some(n)
    case Won(n) => Some(n)
    case RolledBack(n) => Some(n)
    case Crashed(last) => last
  }

  predicate Enabled(s: State, e: Event) {
    match e
    case ChangePlan(t, _) => t in s.plans
    case Begin(c, _, _) => c !in s.calls
    case Count(c) => c in s.calls && s.calls[c].pc.Begun?
    case Arm(c) => c in s.calls && s.calls[c].pc.Counted?
    case Finish(c) => c in s.calls && s.calls[c].pc.Ready? && s.calls[c].pc.n <= s.calls[c].limit
    case RollBack(c) => c in s.calls && s.calls[c].pc.Ready? && s.calls[c].pc.n > s.calls[c].limit
    case Crash(c) => c in s.calls && (s.calls[c].pc.Begun? || s.calls[c].pc.Counted? || s.calls[c].pc.Ready?)
  }

  function SetPc(s: State, c: CallId, pc: Pc): State
    requires c in s.calls
  {
    s.(calls := s.calls[c := s.calls[c].(pc := pc)])
  }

  function Apply(s: State, e: Event, now: int): State
    requires Enabled(s, e)
  {
    match e
    case ChangePlan(t, p) => s.(plans := s.plans[t := p])
    case Begin(c, t, p) =>
      s.(calls := s.calls[c := Call(Key(t, MonthAt(now)), MonthlyQuota(p), now, Begun)])
    case Count(c) =>
      var k := s.calls[c].key;
      var n := Redis.Get(s.db, k, now) + 1;
      SetPc(s.(db := Redis.Add(s.db, k, 1, now)), c, if n == 1 then Counted(n) else Ready(n))
    case Arm(c) =>
      SetPc(s.(db := Redis.PExpire(s.db, s.calls[c].key, FORTY_DAYS_MS, now)), c, Ready(s.calls[c].pc.n))
    case Finish(c) => SetPc(s, c, Won(s.calls[c].pc.n))
    case RollBack(c) =>
      SetPc(s.(db := Redis.Add(s.db, s.calls[c].key, -1, now)), c, RolledBack(s.calls[c].pc.n))
    case Crash(c) => SetPc(s, c, Crashed(Seen(s.calls[c].pc)))
  }

  // ----- promptness: the Redis commands of a call come before the key can expire -----

  /** Nine days past the end of the month. */
  function Deadline(m: Month): int {
    MonthStart(NextMonth(m)) + 9 * MS_PER_DAY
  }

  predicate Prompt(s: State, e: Event, now: int) {
    (e.Count? || e.Arm? || e.RollBack?) && e.c in s.calls ==> now < Deadline(s.calls[e.c].key.month)
  }

  /** Forty days from any instant of a month reach nine days past its end. */
  lemma FortyDaysSuffice(m: Month, begunAt: int, now: int)
    requires InMonth(m, begunAt) && begunAt <= now
    ensures DayNumber(if m.month == 11 then Date(m.year + 1, 0, 1) else Date(m.year, m.month + 1, 1)) * 86_400_000
            + 9 * 86_400_000 <= now + 40 * 86_400_000
    ensures Deadline(m) <= now + FORTY_DAYS_MS
  {
    MonthHolds(begunAt, m);
    MonthBounds(begunAt);
    hide DayNumber, MonthAt;
  }

  // ----- who holds a unit of the counter -----

  /** A call holds a unit from its INCR until its DECR; a crash keeps the unit. */
  predicate Holding(pc: Pc) {
    Seen(pc).Some? && !pc.RolledBack?
  }

  ghost function Holders(s: State, k: Key): set<CallId> {
    set c | c in s.calls && s.calls[c].key == k && Holding(s.calls[c].pc)
  }

  ghost function Incremented(s: State, k: Key): set<CallId> {
    set c | c in s.calls && s.calls[c].key == k && Seen(s.calls[c].pc).Some?
  }

  /** A call whose INCR result is within its limit: it has won, or will unless it crashes. */
  predicate Entitled(call: Call) {
    Seen(call.pc).Some? && Seen(call.pc).value <= call.limit
  }

  ghost function Winners(s: State, k: Key): set<CallId> {
    set c | c in s.calls && s.calls[c].key == k && Entitled(s.calls[c])
  }

  // ----- invariant -----

  predicate CallOk(call: Call, now: int) {
    && call.begunAt <= now && InMonth(call.key.month, call.begunAt)
    && Deadline(call.key.month) <= call.begunAt + FORTY_DAYS_MS
    && (call.pc.RolledBack? ==> call.pc.n > call.limit)
    && (call.pc.Won? ==> call.pc.n <= call.limit)
    && (call.pc.Counted? ==> call.pc.n == 1)
  }

  /** The stored counter is the number of units held. */
  ghost predicate CounterOk(s: State, k: Key) {
    (if k in s.db then s.db[k].value else 0) == |Holders(s, k)|
  }

  ghost predicate Inv(s: State, now: int) {
    && (forall c | c in s.calls :: CallOk(s.calls[c], now))
    && (forall k | k in s.db :: s.db[k].expiresAt.Some? ==> Deadline(k.month) <= s.db[k].expiresAt.value)
    && (forall k :: CounterOk(s, k))
  }

  /** Until its deadline a month's key never expires, so its counter reads as the holders. */
  lemma CounterReads(s: State, k: Key, now: int)
    requires Inv(s, now) && now < Deadline(k.month)
    ensures Redis.Get(s.db, k, now) == |Holders(s, k)|
    ensures k in s.db ==> Redis.Live(s.db, k, now)
  {
    hide Deadline;
    assert CounterOk(s, k);
  }

  /** A prompt INCR returns one more than the units held. */
  lemma CountSees(s: State, c: CallId, now: int)
    requires Inv(s, now) && Enabled(s, Count(c)) && Prompt(s, Count(c), now)
    ensures var t := Apply(s, Count(c), now);
            && c in t.calls && t.calls == s.calls[c := t.calls[c]]
            && t.calls[c].key == s.calls[c].key && t.calls[c].limit == s.calls[c].limit
            && Seen(t.calls[c].pc) == Some(|Holders(s, s.calls[c].key)| + 1) && Holding(t.calls[c].pc)
            && !t.calls[c].pc.Won? && (t.calls[c].pc.Ready? ==> t.calls[c].pc.n != 1)
            && s.calls[c].key in t.db
  {
    hide Deadline;
    CounterReads(s, s.calls[c].key, now);
  }

  lemma OtherHolders(s: State, t: State, c: CallId, k: Key)
    requires c in s.calls && c in t.calls && t.calls == s.calls[c := t.calls[c]]
    requires s.calls[c].key == t.calls[c].key
    ensures Holders(t, k) == if s.calls[c].key != k then Holders(s, k)
                             else if Holding(t.calls[c].pc) then Holders(s, k) + {c} else Holders(s, k) - {c}
    ensures Incremented(t, k) == if s.calls[c].key != k then Incremented(s, k)
                             else if Seen(t.calls[c].pc).Some? then Incremented(s, k) + {c} else Incremented(s, k) - {c}
    ensures Winners(t, k) == if s.calls[c].key != k then Winners(s, k)
                             else if Entitled(t.calls[c]) then Winners(s, k) + {c} else Winners(s, k) - {c}
  {
  }

  lemma BeginOk(tenant: TenantId, m: Month, now: int)
    requires m == MonthAt(now)
    ensures InMonth(m, now) && Deadline(m) <= now + FORTY_DAYS_MS
  {
    MonthHolds(now, m);
    FortyDaysSuffice(m, now, now);
  }

  lemma KeepQuiet(s: State, e: Event, now: int)
    requires Inv(s, now) && Enabled(s, e) && !e.Count? && !e.Arm? && !e.RollBack?
    ensures Inv(Apply(s, e, now), now)
  {
    hide Deadline, MonthAt;
    var t := Apply(s, e, now);
    if e.Begin? { BeginOk(e.tenant, MonthAt(now), now); }
    forall k ensures CounterOk(t, k) {
      assert CounterOk(s, k);
      assert Holders(t, k) == Holders(s, k);
    }
  }

  /** One command on a call's key: the counter moves exactly as the set of holders does. */
  lemma CounterMoves(s: State, t: State, c: CallId, k: Key, delta: int)
    requires CounterOk(s, k)
    requires c in s.calls && c in t.calls && t.calls == s.calls[c := t.calls[c]]
    requires s.calls[c].key == t.calls[c].key
    requires delta == (if Holding(t.calls[c].pc) then 1 else 0) - (if Holding(s.calls[c].pc) then 1 else 0)
    requires var k0 := s.calls[c].key;
             if k == k0 then (if k in t.db then t.db[k].value else 0)
                 == (if k in s.db then s.db[k].value else 0) + delta
             else (k in t.db) == (k in s.db) && (k in s.db ==> t.db[k] == s.db[k])
    ensures CounterOk(t, k)
  {
    OtherHolders(s, t, c, k);
    if s.calls[c].key == k {
      if Holding(s.calls[c].pc) {
        assert c in Holders(s, k);
        assert Holders(s, k) + {c} == Holders(s, k);
      } else {
        assert c !in Holders(s, k);
        assert Holders(s, k) - {c} == Holders(s, k);
      }
    }
  }

  lemma KeepCount(s: State, c: CallId, now: int)
    requires Inv(s, now) && Enabled(s, Count(c)) && Prompt(s, Count(c), now)
    ensures Inv(Apply(s, Count(c), now), now)
  {
    hide Deadline, CounterOk, Holders;
    var t := Apply(s, Count(c), now);
    CounterReads(s, s.calls[c].key, now);
    forall k ensures CounterOk(t, k) {
      assert CounterOk(s, k);
      CounterMoves(s, t, c, k, 1);
    }
  }

  lemma KeepArm(s: State, c: CallId, now: int)
    requires Inv(s, now) && Enabled(s, Arm(c)) && Prompt(s, Arm(c), now)
    ensures Inv(Apply(s, Arm(c), now), now)
  {
    hide Deadline, CounterOk, Holders;
    var t := Apply(s, Arm(c), now);
    forall k ensures CounterOk(t, k) {
      assert CounterOk(s, k);
      CounterMoves(s, t, c, k, 0);
    }
  }

  lemma KeepRollBack(s: State, c: CallId, now: int)
    requires Inv(s, now) && Enabled(s, RollBack(c)) && Prompt(s, RollBack(c), now)
    ensures Inv(Apply(s, RollBack(c), now), now)
  {
    hide Deadline, CounterOk, Holders;
    var t := Apply(s, RollBack(c), now);
    CounterReads(s, s.calls[c].key, now);
    forall k ensures CounterOk(t, k) {
      assert CounterOk(s, k);
      CounterMoves(s, t, c, k, -1);
    }
  }

  lemma StepKeepsInv(s: State, e: Event, now: int)
    requires Inv(s, now) && Enabled(s, e) && Prompt(s, e, now)
    ensures Inv(Apply(s, e, now), now)
  {
    match e
    case Count(c) => KeepCount(s, c, now);
    case Arm(c) => KeepArm(s, c, now);
    case RollBack(c) => KeepRollBack(s, c, now);
    case _ => KeepQuiet(s, e, now);
  }

  // ----- what callers get -----

  /** Winning is safe whatever plans, crashes and pending rollbacks do: the call that is told
      n <= limit leaves at most `limit` winners in its month. */
  lemma WinStaysWithinLimit(s: State, c: CallId, now: int)
    requires Inv(s, now) && Enabled(s, Count(c)) && Prompt(s, Count(c), now)
    ensures var t := Apply(s, Count(c), now);
            Entitled(t.calls[c]) ==> |Winners(t, t.calls[c].key)| <= t.calls[c].limit
  {
    hide Deadline;
    var t := Apply(s, Count(c), now);
    var k := s.calls[c].key;
    KeepCount(s, c, now);
    CounterReads(s, k, now);
    assert CounterOk(t, k);
    assert forall d | d in Winners(t, k) :: CallOk(t.calls[d], now);
    SubsetSize(Winners(t, k), Holders(t, k));
  }

  predicate AllLimits(s: State, k: Key, limit: nat) {
    forall c | c in s.calls && s.calls[c].key == k :: s.calls[c].limit == limit
  }

  /** While every call on k works with one limit: the winners are min(limit, increments), and
      a unit is held by a non-winner only when `limit` winners exist. */
  ghost predicate FixedLimitLaw(s: State, k: Key, limit: nat) {
    AllLimits(s, k, limit) ==>
      && |Winners(s, k)| == (if limit < |Incremented(s, k)| then limit else |Incremented(s, k)|)
      && (Winners(s, k) != Holders(s, k) ==> |Winners(s, k)| == limit)
  }

  lemma SetsNest(s: State, k: Key, now: int)
    requires Inv(s, now)
    ensures Winners(s, k) <= Holders(s, k) <= Incremented(s, k)
  {
  }

  lemma LimitsStay(s: State, e: Event, now: int, k: Key, limit: nat)
    requires Enabled(s, e) && AllLimits(Apply(s, e, now), k, limit)
    ensures AllLimits(s, k, limit)
  {
    hide MonthAt;
    var t := Apply(s, e, now);
    forall c | c in s.calls && s.calls[c].key == k ensures s.calls[c].limit == limit {
      assert c in t.calls && t.calls[c].key == k && t.calls[c].limit == s.calls[c].limit;
    }
  }

  /** Events other than a count or a rollback leave all three sets as they are. */
  lemma QuietStep(s: State, e: Event, now: int, k: Key)
    requires Enabled(s, e) && !e.Count? && !e.RollBack?
    ensures var t := Apply(s, e, now);
            Winners(t, k) == Winners(s, k) && Holders(t, k) == Holders(s, k) && Incremented(t, k) == Incremented(s, k)
  {
    hide MonthAt;
    Unmoved(s, Apply(s, e, now), k);
  }

  lemma StepKeepsLaw(s: State, e: Event, now: int, k: Key, limit: nat)
    requires Inv(s, now) && Enabled(s, e) && Prompt(s, e, now) && FixedLimitLaw(s, k, limit)
    ensures FixedLimitLaw(Apply(s, e, now), k, limit)
  {
    hide Deadline, MonthAt, Inv, Holders, Winners, Incremented, AllLimits;
    var t := Apply(s, e, now);
    if AllLimits(t, k, limit) {
      LimitsStay(s, e, now, k, limit);
      match e
      case Count(c) => CountKeepsLaw(s, c, now, k, limit);
      case RollBack(c) => RollBackKeepsLaw(s, c, now, k, limit);
      case _ => QuietStep(s, e, now, k);
    }
  }

  lemma Unmoved(s: State, t: State, k: Key)
    requires forall c | c in s.calls :: c in t.calls && t.calls[c].key == s.calls[c].key
               && t.calls[c].limit == s.calls[c].limit
               && Seen(t.calls[c].pc) == Seen(s.calls[c].pc) && Holding(t.calls[c].pc) == Holding(s.calls[c].pc)
    requires forall c | c in t.calls && c !in s.calls :: Seen(t.calls[c].pc).None?
    ensures Winners(t, k) == Winners(s, k) && Holders(t, k) == Holders(s, k) && Incremented(t, k) == Incremented(s, k)
  {
  }

  /** The law as a fact about sets: one more increment c that saw |held| + 1. */
  lemma OneMore(winners: set<CallId>, held: set<CallId>, all: set<CallId>, c: CallId, limit: nat)
    requires winners <= held <= all && c !in all
    requires |winners| == if limit < |all| then limit else |all|
    requires winners != held ==> |winners| == limit
    ensures var w := if |held| + 1 <= limit then winners + {c} else winners;
            && |w| == (if limit < |all + {c}| then limit else |all + {c}|)
            && (w != held + {c} ==> |w| == limit)
  {
    SubsetSize(winners, held);
    SubsetSize(held, all);
  }

  lemma CountKeepsLaw(s: State, c: CallId, now: int, k: Key, limit: nat)
    requires Inv(s, now) && Enabled(s, Count(c)) && Prompt(s, Count(c), now)
    requires AllLimits(s, k, limit) && FixedLimitLaw(s, k, limit)
    ensures FixedLimitLaw(Apply(s, Count(c), now), k, limit)
  {
    CountSees(s, c, now);
    SetsNest(s, k, now);
    assert c !in Incremented(s, k);
    hide Inv, Holders, Winners, Incremented, Apply, Prompt;
    var t := Apply(s, Count(c), now);
    OtherHolders(s, t, c, k);
    if s.calls[c].key == k {
      OneMore(Winners(s, k), Holders(s, k), Incremented(s, k), c, limit);
      assert s.calls[c].limit == limit;
      assert Winners(s, k) - {c} == Winners(s, k);
    }
  }

  lemma RollBackKeepsLaw(s: State, c: CallId, now: int, k: Key, limit: nat)
    requires Enabled(s, RollBack(c))
    requires AllLimits(s, k, limit) && FixedLimitLaw(s, k, limit)
    ensures FixedLimitLaw(Apply(s, RollBack(c), now), k, limit)
  {
    var t := Apply(s, RollBack(c), now);
    OtherHolders(s, t, c, k);
    hide Apply;
    if s.calls[c].key == k {
      assert c in Holders(s, k) && c !in Winners(s, k) && c in Incremented(s, k);
      assert Winners(t, k) == Winners(s, k) && Incremented(t, k) == Incremented(s, k);
    }
  }

  lemma FullWhenRejected(s: State, c: CallId, now: int, limit: nat)
    requires Inv(s, now) && c in s.calls && AllLimits(s, s.calls[c].key, limit)
    requires FixedLimitLaw(s, s.calls[c].key, limit)
    requires Seen(s.calls[c].pc).Some? && Seen(s.calls[c].pc).value > limit
    ensures |Winners(s, s.calls[c].key)| == limit
  {
    var k := s.calls[c].key;
    SetsNest(s, k, now);
    assert c in Incremented(s, k) && c !in Winners(s, k);
    SubsetSize(Winners(s, k), Incremented(s, k));
  }

  // ----- the time to live is armed once -----

  /** Calls whose INCR returned 1: only they run PEXPIRE. */
  ghost predicate First(s: State, k: Key, c: CallId) {
    c in s.calls && s.calls[c].key == k && Seen(s.calls[c].pc) == Some(1)
  }

  /** With limits of at least 1 the call that counted 1 keeps its unit, so no other call can
      count 1 and once it has armed the key the key stays armed. */
  ghost predicate ArmedOnce(s: State, k: Key) {
    (forall c | c in s.calls && s.calls[c].key == k :: s.calls[c].limit >= 1) ==>
      && (forall c, d | First(s, k, c) && First(s, k, d) :: c == d)
      && (Incremented(s, k) != {} ==> exists c :: First(s, k, c))
      && (forall c | First(s, k, c) && (s.calls[c].pc.Ready? || s.calls[c].pc.Won?) ::
            k in s.db && s.db[k].expiresAt.Some?)
  }

  lemma CountKeepsArmedOnce(s: State, c: CallId, now: int, k: Key)
    requires Inv(s, now) && Enabled(s, Count(c)) && Prompt(s, Count(c), now) && ArmedOnce(s, k)
    requires s.calls[c].key == k && forall d | d in s.calls && s.calls[d].key == k :: s.calls[d].limit >= 1
    ensures ArmedOnce(Apply(s, Count(c), now), k)
  {
    CountSees(s, c, now);
    var t := Apply(s, Count(c), now);
    CountKeepsExpiry(s, c, now);
    hide Inv, Apply, Prompt, CounterOk;
    forall d | d != c ensures First(t, k, d) <==> First(s, k, d) { }
    if d :| First(s, k, d) {
      FirstHolds(s, k, d, now);
      assert !First(t, k, c) && First(t, k, d);
    } else {
      assert Incremented(s, k) == {};
      assert Holders(s, k) == {};
      assert First(t, k, c);
    }
  }

  lemma CountKeepsExpiry(s: State, c: CallId, now: int)
    requires Inv(s, now) && Enabled(s, Count(c)) && Prompt(s, Count(c), now)
    ensures var k := s.calls[c].key;
            k in s.db && s.db[k].expiresAt.Some? ==> Apply(s, Count(c), now).db[k].expiresAt.Some?
  {
  }

  lemma FirstHolds(s: State, k: Key, d: CallId, now: int)
    requires Inv(s, now) && First(s, k, d) && s.calls[d].limit >= 1
    ensures d in Holders(s, k) && |Holders(s, k)| >= 1
  {
  }

  lemma OtherKeepsArmedOnce(s: State, e: Event, now: int, k: Key)
    requires Inv(s, now) && Enabled(s, e) && Prompt(s, e, now) && ArmedOnce(s, k)
    requires e.Count? ==> s.calls[e.c].key != k
    requires forall d | d in s.calls && s.calls[d].key == k :: s.calls[d].limit >= 1
    ensures ArmedOnce(Apply(s, e, now), k)
  {
    hide Deadline, MonthAt, InMonth, MonthlyQuota, CounterOk, Holders, Inv;
    var t := Apply(s, e, now);
    forall d ensures First(t, k, d) <==> First(s, k, d) { }
    if d :| d in Incremented(t, k) {
      assert d in Incremented(s, k);
    }
    if (e.Arm? || e.RollBack?) && s.calls[e.c].key == k { CounterReads(s, k, now); }
    forall d | First(t, k, d) && (t.calls[d].pc.Ready? || t.calls[d].pc.Won?)
      ensures k in t.db && t.db[k].expiresAt.Some?
    {
      if e.Arm? && e.c == d { ArmedKeyExists(s, d, now); }
    }
  }

  /** PEXPIRE lets a key that is there live for forty more days, and leaves its count alone. */
  lemma ArmSets(s: State, c: CallId, now: int)
    requires Enabled(s, Arm(c)) && Redis.Live(s.db, s.calls[c].key, now)
    ensures var k := s.calls[c].key;
            Apply(s, Arm(c), now).db == s.db[k := Redis.Cell(s.db[k].value, Some(now + 40 * 24 * 60 * 60 * 1000))]
  {
  }

  /** Whoever has counted holds a unit, so the key is there to be armed. */
  lemma ArmedKeyExists(s: State, c: CallId, now: int)
    requires Inv(s, now) && c in s.calls && Holding(s.calls[c].pc)
    ensures s.calls[c].key in s.db
  {
    assert CounterOk(s, s.calls[c].key);
    assert c in Holders(s, s.calls[c].key);
  }

  lemma StepKeepsArmedOnce(s: State, e: Event, now: int, k: Key)
    requires Inv(s, now) && Enabled(s, e) && Prompt(s, e, now) && ArmedOnce(s, k)
    ensures ArmedOnce(Apply(s, e, now), k)
  {
    hide Deadline, MonthAt, Inv, First, Incremented;
    var t := Apply(s, e, now);
    if forall c | c in t.calls && t.calls[c].key == k :: t.calls[c].limit >= 1 {
      forall c | c in s.calls && s.calls[c].key == k ensures s.calls[c].limit >= 1 {
        assert c in t.calls && t.calls[c].key == k && t.calls[c].limit == s.calls[c].limit;
      }
      if e.Count? && s.calls[e.c].key == k {
        CountKeepsArmedOnce(s, e.c, now, k);
      } else {
        OtherKeepsArmedOnce(s, e, now, k);
      }
    }
  }

  // ----- whole runs -----

  datatype Stamped = Stamped(e: Event, at: int)

  predicate PromptRun(s: State, now: int, run: seq<Stamped>)
    decreases |run|
  {
    run == [] ||
    (now <= run[0].at && Enabled(s, run[0].e) && Prompt(s, run[0].e, run[0].at)
     && PromptRun(Apply(s, run[0].e, run[0].at), run[0].at, run[1..]))
  }

  function Final(s: State, now: int, run: seq<Stamped>): State
    requires PromptRun(s, now, run)
    decreases |run|
  {
    if run == [] then s else Final(Apply(s, run[0].e, run[0].at), run[0].at, run[1..])
  }

  function Initial(plans: map<TenantId, Plan>): State {
    State(plans, map[], map[])
  }

  function Clock(now: int, run: seq<Stamped>): int {
    if run == [] then now else run[|run| - 1].at
  }

  lemma {:induction false} RunKeeps(s: State, now: int, run: seq<Stamped>, k: Key, limit: nat)
    requires PromptRun(s, now, run)
    requires Inv(s, now) && FixedLimitLaw(s, k, limit) && ArmedOnce(s, k)
    ensures var f := Final(s, now, run);
            Inv(f, Clock(now, run)) && FixedLimitLaw(f, k, limit) && ArmedOnce(f, k)
    decreases |run|
  {
    hide Inv, FixedLimitLaw, ArmedOnce, Apply, Enabled, Prompt;
    if run != [] {
      var e, at := run[0].e, run[0].at;
      Later(s, now, at);
      StepKeepsInv(s, e, at);
      StepKeepsLaw(s, e, at, k, limit);
      StepKeepsArmedOnce(s, e, at, k);
      RunKeeps(Apply(s, e, at), at, run[1..], k, limit);
    }
  }

  lemma Later(s: State, now: int, later: int)
    requires Inv(s, now) && now <= later
    ensures Inv(s, later)
  {
  }

  ghost function CallsOn(s: State, k: Key): set<CallId> {
    set c | c in s.calls && s.calls[c].key == k
  }

  // ----- the calls of a month -----

  /** Event i of the run is a call of that tenant that begins in that month. */
  predicate BeginsIn(run: seq<Stamped>, i: int, tenant: TenantId, m: Month) {
    0 <= i < |run| && run[i].e.Begin? && run[i].e.tenant == tenant && InMonth(m, run[i].at)
  }

  /** The calls of that tenant that the run begins in that month. */
  ghost function BegunIn(run: seq<Stamped>, tenant: TenantId, m: Month): set<CallId> {
    set i | 0 <= i < |run| && BeginsIn(run, i, tenant, m) :: run[i].e.c
  }

  /** Those of them that were allowed. */
  ghost function AllowedIn(s: State, run: seq<Stamped>, tenant: TenantId, m: Month): set<CallId> {
    set c | c in BegunIn(run, tenant, m) && c in s.calls && s.calls[c].pc.Won?
  }

  /** Every one of them works with that limit, by the plan that was read for it. */
  predicate OneLimit(run: seq<Stamped>, tenant: TenantId, m: Month, limit: nat) {
    forall i | 0 <= i < |run| && BeginsIn(run, i, tenant, m) :: MonthlyQuota(run[i].e.plan) == limit
  }

  /** Every one of them has returned. */
  ghost predicate AllReturned(s: State, run: seq<Stamped>, tenant: TenantId, m: Month) {
    forall c | c in BegunIn(run, tenant, m) :: c in s.calls && (s.calls[c].pc.Won? || s.calls[c].pc.RolledBack?)
  }

  lemma StepCalls(s: State, e: Event, now: int, k: Key)
    requires Enabled(s, e)
    ensures var t := Apply(s, e, now);
            && s.calls.Keys <= t.calls.Keys
            && (forall c | c in s.calls :: t.calls[c].key == s.calls[c].key && t.calls[c].limit == s.calls[c].limit)
            && (forall c | c in t.calls && c !in s.calls ::
                  e.Begin? && c == e.c && t.calls[c].key == Key(e.tenant, MonthAt(now))
                  && t.calls[c].limit == MonthlyQuota(e.plan))
            && (e.Begin? ==> e.c in t.calls && e.c !in s.calls)
  {
    hide MonthAt;
  }

  /** The calls on the counter of a month are exactly those that the tenant began in that month, and
      each works with the limit of the plan that was read for it. */
  lemma {:induction false} CallsAreBegun(s: State, now: int, run: seq<Stamped>, k: Key)
    requires PromptRun(s, now, run)
    ensures var f := Final(s, now, run);
            && CallsOn(f, k) == CallsOn(s, k) + BegunIn(run, k.tenant, k.month)
            && (forall i | 0 <= i < |run| && run[i].e.Begin? ::
                  run[i].e.c in f.calls && f.calls[run[i].e.c].limit == MonthlyQuota(run[i].e.plan))
            && (forall c | c in s.calls :: c in f.calls && f.calls[c].limit == s.calls[c].limit)
    decreases |run|
  {
    if run != [] {
      var e, at, rest := run[0].e, run[0].at, run[1..];
      var t := Apply(s, e, at);
      StepCalls(s, e, at, k);
      MonthHolds(at, k.month);
      CallsAreBegun(t, at, rest, k);
      hide Apply, Enabled, Prompt, MonthAt, InMonth, MonthlyQuota;
      BegunFirst(run, k.tenant, k.month);
      assert forall i | 1 <= i < |run| :: run[i] == rest[i - 1];
      assert CallsOn(t, k) == CallsOn(s, k) + if BeginsIn(run, 0, k.tenant, k.month) then {e.c} else {};
    }
  }

  lemma BegunFirst(run: seq<Stamped>, tenant: TenantId, m: Month)
    requires run != []
    ensures BegunIn(run, tenant, m)
            == BegunIn(run[1..], tenant, m) + if BeginsIn(run, 0, tenant, m) then {run[0].e.c} else {}
  {
    hide InMonth;
    var rest := run[1..];
    forall i | 0 <= i < |rest| ensures BeginsIn(rest, i, tenant, m) <==> BeginsIn(run, i + 1, tenant, m) { }
    forall c | c in BegunIn(run, tenant, m)
      ensures c in BegunIn(rest, tenant, m) + if BeginsIn(run, 0, tenant, m) then {run[0].e.c} else {}
    {
      var i :| 0 <= i < |run| && BeginsIn(run, i, tenant, m) && run[i].e.c == c;
      if i > 0 { assert BeginsIn(rest, i - 1, tenant, m); }
    }
    forall c | c in BegunIn(rest, tenant, m) ensures c in BegunIn(run, tenant, m) {
      var i :| 0 <= i < |rest| && BeginsIn(rest, i, tenant, m) && rest[i].e.c == c;
      assert BeginsIn(run, i + 1, tenant, m);
    }
  }

  /** Quota is exact. After any prompt run the counter of a month is the number of units held. Once all
      calls that the tenant began in that month, each with that limit, have returned, exactly
      min(limit, calls) of them were allowed and the counter says so. */
  lemma QuotaExact(plans: map<TenantId, Plan>, start: int, run: seq<Stamped>, tenant: TenantId, m: Month, limit: nat)
    requires PromptRun(Initial(plans), start, run)
    ensures var f, k := Final(Initial(plans), start, run), Key(tenant, m);
            var begun, allowed := BegunIn(run, tenant, m), AllowedIn(f, run, tenant, m);
            && (if k in f.db then f.db[k].value else 0) == |Holders(f, k)|
            && (OneLimit(run, tenant, m, limit) && AllReturned(f, run, tenant, m) ==>
                  && |allowed| == (if limit < |begun| then limit else |begun|)
                  && (if k in f.db then f.db[k].value else 0) == |allowed|)
  {
    var k := Key(tenant, m);
    InitialOk(plans, start, k, limit);
    RunKeeps(Initial(plans), start, run, k, limit);
    CallsAreBegun(Initial(plans), start, run, k);
    var f := Final(Initial(plans), start, run);
    assert CounterOk(f, k);
    assert CallsOn(Initial(plans), k) == {};
    if OneLimit(run, tenant, m, limit) && AllReturned(f, run, tenant, m) {
      BegunLimits(f, run, tenant, m, limit);
      hide Deadline, InMonth, PromptRun, Final, BegunIn, MonthlyQuota;
      Returned(f, k, Clock(start, run));
      assert AllowedIn(f, run, tenant, m) == Winners(f, k);
    }
  }

  lemma BegunLimits(f: State, run: seq<Stamped>, tenant: TenantId, m: Month, limit: nat)
    requires CallsOn(f, Key(tenant, m)) == BegunIn(run, tenant, m) && OneLimit(run, tenant, m, limit)
    requires forall i | 0 <= i < |run| && run[i].e.Begin? ::
               run[i].e.c in f.calls && f.calls[run[i].e.c].limit == MonthlyQuota(run[i].e.plan)
    ensures AllLimits(f, Key(tenant, m), limit)
  {
    hide InMonth, MonthlyQuota;
    forall c | c in f.calls && f.calls[c].key == Key(tenant, m) ensures f.calls[c].limit == limit {
      assert c in CallsOn(f, Key(tenant, m));
      assert c in BegunIn(run, tenant, m);
      var i :| 0 <= i < |run| && BeginsIn(run, i, tenant, m) && run[i].e.c == c;
    }
  }

  /** Once all calls on a key have returned, all have counted, and the winners are those allowed. */
  lemma Returned(f: State, k: Key, now: int)
    requires Inv(f, now)
    requires forall c | c in CallsOn(f, k) :: f.calls[c].pc.Won? || f.calls[c].pc.RolledBack?
    ensures Incremented(f, k) == CallsOn(f, k) && Winners(f, k) == Holders(f, k)
    ensures forall c | c in CallsOn(f, k) :: f.calls[c].pc.Won? <==> c in Winners(f, k)
  {
    hide Deadline, InMonth;
    assert forall c | c in CallsOn(f, k) :: CallOk(f.calls[c], now);
  }

  /** The quotas of the three plans: of the calls that a tenant began in a month, all on that plan, and
      that have all returned, at most so many were allowed, and all of them when there were no more. */
  lemma PlanExact(plans: map<TenantId, Plan>, start: int, run: seq<Stamped>, tenant: TenantId, m: Month, plan: Plan)
    requires PromptRun(Initial(plans), start, run)
    requires forall i | 0 <= i < |run| && BeginsIn(run, i, tenant, m) :: run[i].e.plan == plan
    requires AllReturned(Final(Initial(plans), start, run), run, tenant, m)
    ensures var begun := BegunIn(run, tenant, m);
            var limit := match plan case Free => 100 case Pro => 10_000 case Scale => 100_000;
            |AllowedIn(Final(Initial(plans), start, run), run, tenant, m)| == if limit < |begun| then limit else |begun|
  {
    hide InMonth;
    QuotaExact(plans, start, run, tenant, m, MonthlyQuota(plan));
  }

  /** A call is turned away only when the month already has `limit` winners, even while others
      have not rolled back yet. */
  lemma RejectionMeansFull(plans: map<TenantId, Plan>, start: int, run: seq<Stamped>, c: CallId, limit: nat)
    requires PromptRun(Initial(plans), start, run)
    requires var f := Final(Initial(plans), start, run);
             c in f.calls && AllLimits(f, f.calls[c].key, limit) && Seen(f.calls[c].pc).Some?
                 && Seen(f.calls[c].pc).value > limit
    ensures var f := Final(Initial(plans), start, run); |Winners(f, f.calls[c].key)| == limit
  {
    var f := Final(Initial(plans), start, run);
    InitialOk(plans, start, f.calls[c].key, limit);
    RunKeeps(Initial(plans), start, run, f.calls[c].key, limit);
    FullWhenRejected(f, c, Clock(start, run), limit);
  }

  lemma InitialOk(plans: map<TenantId, Plan>, start: int, k: Key, limit: nat)
    ensures Inv(Initial(plans), start) && FixedLimitLaw(Initial(plans), k, limit) && ArmedOnce(Initial(plans), k)
  {
  }

  /** The key of a month is armed by one call only, provided every limit is at least 1. */
  lemma ArmedByOneCall(plans: map<TenantId, Plan>, start: int, run: seq<Stamped>, c: CallId, d: CallId)
    requires PromptRun(Initial(plans), start, run)
    requires var f := Final(Initial(plans), start, run);
             && c in f.calls && d in f.calls && f.calls[c].key == f.calls[d].key
             && Seen(f.calls[c].pc) == Some(1) && Seen(f.calls[d].pc) == Some(1)
             && forall e | e in f.calls && f.calls[e].key == f.calls[c].key :: f.calls[e].limit >= 1
    ensures c == d
  {
    var f := Final(Initial(plans), start, run);
    var k := f.calls[c].key;
    InitialOk(plans, start, k, 0);
    RunKeeps(Initial(plans), start, run, k, 0);
    assert First(f, k, c) && First(f, k, d);
  }

  /** A limit of 0 breaks that: the only holder rolls its unit back and the next call counts 1
      again. */
  lemma ZeroLimitArmsAgain(s: State, c: CallId, d: CallId, now: int)
    requires Inv(s, now) && c != d && c in s.calls && d in s.calls && s.calls[c].key == s.calls[d].key
    requires s.calls[c].pc == Ready(1) && s.calls[c].limit == 0 && s.calls[d].pc.Begun?
    requires Holders(s, s.calls[c].key) == {c} && now < Deadline(s.calls[c].key.month)
    ensures var t := Apply(s, RollBack(c), now);
            Enabled(t, Count(d)) && Apply(t, Count(d), now).calls[d].pc == Counted(1)
  {
    hide Deadline;
    var t := Apply(s, RollBack(c), now);
    KeepRollBack(s, c, now);
    OtherHolders(s, t, c, s.calls[c].key);
    CounterReads(t, s.calls[c].key, now);
  }

  /** The clause for rollbacks: any command on a month's key up to nine days after the month
      has ended still finds the counter, once something was counted. */
  lemma NeverResets(plans: map<TenantId, Plan>, start: int, run: seq<Stamped>, k: Key, now: int)
    requires PromptRun(Initial(plans), start, run) && Clock(start, run) <= now < Deadline(k.month)
    ensures var f := Final(Initial(plans), start, run);
            Redis.Get(f.db, k, now) == |Holders(f, k)| && (k in f.db ==> Redis.Live(f.db, k, now))
  {
    InitialOk(plans, start, k, 0);
    RunKeeps(Initial(plans), start, run, k, 0);
    var f := Final(Initial(plans), start, run);
    Later(f, Clock(start, run), now);
    CounterReads(f, k, now);
  }
}
