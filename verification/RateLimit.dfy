/** The per-minute rate limiter on a shared Redis counter: INCR on the key of a calendar minute,
    then PEXPIRE by whoever counted 1. Checks of any number of clients interleave freely. */
module RateLimit {
  import opened Wrappers
  import Redis

  const WINDOW_MS: int := 60_000

  type Identity = nat

  /** rl:<hash>:<minute>, with the minute as a number of minutes since the epoch. */
  datatype Key = Key(who: Identity, minute: int)

  /** One INCR: when it happened and what it returned. */
  datatype Hit = Hit(key: Key, at: int, count: int)

  datatype State = State(now: int, db: map<Key, Redis.Cell>, log: seq<Hit>, armed: set<nat>)

  datatype Event = Tick(ms: nat) | Incr(key: Key) | Arm(i: nat)

  predicate Enabled(s: State, e: Event) {
    e.Arm? ==> e.i < |s.log| && s.log[e.i].count == 1 && e.i !in s.armed
  }

  function Apply(s: State, e: Event): State
    requires Enabled(s, e)
  {
    match e
    case Tick(ms) => s.(now := s.now + ms)
    case Incr(key) =>
      s.(db := Redis.Add(s.db, key, 1, s.now), log := s.log + [Hit(key, s.now, Redis.Get(s.db, key, s.now) + 1)])
    case Arm(i) =>
      s.(db := Redis.PExpire(s.db, s.log[i].key, WINDOW_MS, s.now), armed := s.armed + {i})
  }

  /** The increment happens in the minute that its key names. */
  predicate Prompt(s: State, e: Event) {
    e.Incr? ==> e.key.minute == s.now / WINDOW_MS
  }

  function Hits(log: seq<Hit>, k: Key): nat {
    if log == [] then 0 else Hits(log[..|log| - 1], k) + if log[|log| - 1].key == k then 1 else 0
  }

  function Passes(log: seq<Hit>, k: Key, limit: int): nat {
    if log == [] then 0
    else
      var h := log[|log| - 1];
      Passes(log[..|log| - 1], k, limit) + if h.key == k && h.count <= limit then 1 else 0
  }

  /** Passes of an identity in a stretch of time. */
  function PassesIn(log: seq<Hit>, who: Identity, from: int, to: int, limit: int): nat {
    if log == [] then 0
    else
      var h := log[|log| - 1];
      PassesIn(log[..|log| - 1], who, from, to, limit)
      + if h.key.who == who && from <= h.at < to && h.count <= limit then 1 else 0
  }

  // ----- invariant -----

  /** The i-th INCR of a key returned i, inside the minute of the key. */
  predicate HitOk(log: seq<Hit>, i: nat)
    requires i < |log|
  {
    log[i].count == Hits(log[..i], log[i].key) + 1 && log[i].key.minute == log[i].at / WINDOW_MS
  }

  predicate KeyOk(s: State, k: Key) {
    if k in s.db then
      s.db[k].value == Hits(s.log, k)
      && (s.db[k].expiresAt.Some? ==> (k.minute + 1) * WINDOW_MS <= s.db[k].expiresAt.value)
    else Hits(s.log, k) == 0
  }

  ghost predicate Inv(s: State) {
    && (forall i | 0 <= i < |s.log| :: HitOk(s.log, i) && s.log[i].at <= s.now)
    && (forall k :: KeyOk(s, k))
  }

  /** The key of the running minute cannot have expired, so it counts every hit of the minute. */
  lemma CounterReads(s: State, k: Key)
    requires Inv(s) && k.minute == s.now / WINDOW_MS
    ensures Redis.Get(s.db, k, s.now) == Hits(s.log, k)
    ensures k in s.db ==> Redis.Live(s.db, k, s.now)
  {
    assert KeyOk(s, k);
    assert s.now < (k.minute + 1) * WINDOW_MS;
  }

  lemma KeepIncr(s: State, key: Key)
    requires Inv(s) && key.minute == s.now / WINDOW_MS
    ensures Inv(Apply(s, Incr(key)))
  {
    var t := Apply(s, Incr(key));
    CounterReads(s, key);
    assert t.log[..|t.log| - 1] == s.log;
    forall i | 0 <= i < |t.log| ensures HitOk(t.log, i) && t.log[i].at <= t.now {
      assert t.log[..i] == s.log[..i];
      if i < |s.log| { assert HitOk(s.log, i); }
    }
    forall k ensures KeyOk(t, k) { assert KeyOk(s, k); }
  }

  lemma KeepArm(s: State, i: nat)
    requires Inv(s) && Enabled(s, Arm(i))
    ensures Inv(Apply(s, Arm(i)))
  {
    var t, key := Apply(s, Arm(i)), s.log[i].key;
    assert HitOk(s.log, i);
    assert s.now + WINDOW_MS >= (key.minute + 1) * WINDOW_MS;
    forall k ensures KeyOk(t, k) { assert KeyOk(s, k); }
  }

  lemma StepKeepsInv(s: State, e: Event)
    requires Inv(s) && Enabled(s, e) && Prompt(s, e)
    ensures Inv(Apply(s, e))
  {
    match e
    case Incr(key) => KeepIncr(s, key);
    case Arm(i) => KeepArm(s, i);
    case Tick(ms) =>
      forall k ensures KeyOk(Apply(s, e), k) { assert KeyOk(s, k); }
  }

  // ----- what clients get -----

  predicate WellCounted(log: seq<Hit>) {
    forall i | 0 <= i < |log| :: HitOk(log, i)
  }

  lemma PrefixCounted(log: seq<Hit>)
    requires log != [] && WellCounted(log)
    ensures WellCounted(log[..|log| - 1]) && HitOk(log, |log| - 1)
  {
    var p := log[..|log| - 1];
    forall i | 0 <= i < |p| ensures HitOk(p, i) {
      assert HitOk(log, i);
      assert p[..i] == log[..i];
    }
  }

  /** Exactly min(limit, hits) of the hits on a key pass. */
  lemma {:induction false} PassesExact(log: seq<Hit>, k: Key, limit: int)
    requires WellCounted(log)
    ensures Passes(log, k, limit) == if limit < 0 then 0 else if limit < Hits(log, k) then limit else Hits(log, k)
    decreases |log|
  {
    if log != [] {
      PrefixCounted(log);
      PassesExact(log[..|log| - 1], k, limit);
    }
  }

  /** No stretch of 60 seconds sees more than the passes of two neighbouring minutes. */
  lemma {:induction false} WindowCoversTwoMinutes(log: seq<Hit>, who: Identity, from: int, to: int, limit: int)
    requires WellCounted(log) && to <= from + WINDOW_MS
    ensures var m := from / WINDOW_MS;
            PassesIn(log, who, from, to, limit) <= Passes(log, Key(who, m), limit) + Passes(log, Key(who, m + 1), limit)
    decreases |log|
  {
    if log != [] {
      PrefixCounted(log);
      WindowCoversTwoMinutes(log[..|log| - 1], who, from, to, limit);
      var h := log[|log| - 1];
      if h.key.who == who && from <= h.at < to { MinutesOfWindow(from, to, h.at); }
    }
  }

  lemma MinutesOfWindow(from: int, to: int, at: int)
    requires from <= at < to <= from + WINDOW_MS
    ensures at / WINDOW_MS == from / WINDOW_MS || at / WINDOW_MS == from / WINDOW_MS + 1
  {
  }

  // ----- whole runs -----

  predicate PromptRun(s: State, run: seq<Event>)
    decreases |run|
  {
    run == [] || (Enabled(s, run[0]) && Prompt(s, run[0]) && PromptRun(Apply(s, run[0]), run[1..]))
  }

  function Final(s: State, run: seq<Event>): State
    requires PromptRun(s, run)
    decreases |run|
  {
    if run == [] then s else Final(Apply(s, run[0]), run[1..])
  }

  lemma {:induction false} RunKeepsInv(s: State, run: seq<Event>)
    requires PromptRun(s, run) && Inv(s)
    ensures Inv(Final(s, run))
    decreases |run|
  {
    hide Inv, Apply, Enabled, Prompt;
    if run != [] {
      StepKeepsInv(s, run[0]);
      RunKeepsInv(Apply(s, run[0]), run[1..]);
    }
  }

  /** Over every run whose increments come in the minute of their keys: each identity gets
      min(limit, requests) passes in each calendar minute, and at most twice the limit in any
      60 seconds. */
  lemma LimitHolds(start: int, run: seq<Event>, k: Key, from: int, limit: nat)
    requires PromptRun(State(start, map[], [], {}), run)
    ensures var log := Final(State(start, map[], [], {}), run).log;
            && (forall i | 0 <= i < |log| :: log[i].key.minute * 60_000 <= log[i].at < (log[i].key.minute + 1) * 60_000)
            && Passes(log, k, limit) == (if limit < Hits(log, k) then limit else Hits(log, k))
            && PassesIn(log, k.who, from, from + 60_000, limit) <= 2 * limit
  {
    var s := State(start, map[], [], {});
    assert Inv(s);
    RunKeepsInv(s, run);
    var log := Final(s, run).log;
    assert WellCounted(log);
    forall i | 0 <= i < |log| ensures log[i].key.minute * 60_000 <= log[i].at < (log[i].key.minute + 1) * 60_000 {
      assert HitOk(log, i);
    }
    PassesExact(log, k, limit);
    WindowCoversTwoMinutes(log, k.who, from, from + WINDOW_MS, limit);
    PassesExact(log, Key(k.who, from / WINDOW_MS), limit);
    PassesExact(log, Key(k.who, from / WINDOW_MS + 1), limit);
  }

  /** A late increment falls outside that promise: once the key has expired, it counts from 1. */
  lemma LateIncrementStartsOver(s: State, key: Key)
    requires key in s.db && s.db[key].expiresAt.Some? && s.db[key].expiresAt.value <= s.now
    ensures var t := Apply(s, Incr(key)); t.log[|t.log| - 1].count == 1
  {
  }

  /** Whoever counted 1 lets the key live for one more minute, and leaves its count alone. */
  lemma ArmSets(s: State, i: nat)
    requires Enabled(s, Arm(i)) && Redis.Live(s.db, s.log[i].key, s.now)
    ensures var k := s.log[i].key;
            Apply(s, Arm(i)).db == s.db[k := Redis.Cell(s.db[k].value, Some(s.now + 60_000))]
  {
  }

  // ----- the guard as code -----

  class Guard {
    var s: State
    const limit: int
    ghost var late: bool   // some increment has come after its minute

    ghost predicate Valid()
      reads this
    {
      (!late ==> Inv(s)) && forall j | j in s.armed :: j < |s.log| && s.log[j].count == 1
    }

    constructor (now: int, perMinute: int)
      ensures Valid() && !late && limit == perMinute && s == State(now, map[], [], {})
    {
      s, limit, late := State(now, map[], [], {}), perMinute, false;
    }

    method Step(e: Event)
      requires Valid() && Enabled(s, e)
      modifies this
      ensures Valid() && s == Apply(old(s), e) && old(s.log) <= s.log
      ensures late == (old(late) || !Prompt(old(s), e))
      ensures old(s.now) <= s.now && s.armed == old(s.armed) + if e.Arm? then {e.i} else {}
    {
      if !late && Prompt(s, e) { StepKeepsInv(s, e); }
      late := late || !Prompt(s, e);
      s := Apply(s, e);
    }

    /** Others check, and time passes; they leave the expiry of hit i to whoever made it. */
    method Wait(i: Option<nat>)
      requires Valid()
      modifies this
      ensures Valid() && old(s.log) <= s.log && old(s.now) <= s.now && (old(late) ==> late)
      ensures old(s.armed) <= s.armed && (i.Some? && i.value !in old(s.armed) ==> i.value !in s.armed)
    {
      hide Inv;
      var n :| n >= 0;
      for k := 0 to n
        invariant Valid() && old(s.log) <= s.log && old(s.now) <= s.now && (old(late) ==> late)
        invariant old(s.armed) <= s.armed && (i.Some? && i.value !in old(s.armed) ==> i.value !in s.armed)
      {
        var e: Event := *;
        if Enabled(s, e) && !(e.Arm? && i == Some(e.i)) { Step(e); }
      }
    }

    /** RateLimiter.check: the answer depends on the INCR of this very call, logged at i, and the
        call sends PEXPIRE exactly when it counted 1. */
    method Check(key: Key) returns (allowed: bool, remaining: int, ghost i: nat)
      requires Valid()
      modifies this
      ensures Valid() && old(s.log) <= s.log && (old(late) ==> late)
      ensures |old(s.log)| <= i < |s.log| && s.log[i].key == key && (i in s.armed <==> s.log[i].count == 1)
      ensures allowed == (s.log[i].count <= limit)
      ensures remaining == if s.log[i].count < limit then limit - s.log[i].count else 0
      ensures !late ==> s.log[i].count == Hits(s.log[..i], key) + 1 && s.log[i].at / 60_000 == key.minute
    {
      hide Inv;
      var mine := |s.log|;
      i := mine;
      Step(Incr(key));
      var count := s.log[mine].count;
      ghost var logged := s.log;
      Wait(Some(mine));
      if count == 1 { Step(Arm(mine)); }
      Wait(None);
      assert s.log[mine] == logged[mine];
      if !late { HitHere(s, mine); }
      return count <= limit, if count < limit then limit - count else 0, mine;
    }

    /** RateLimitGuard.canActivate: the minute is read before the increment is sent. */
    method CanActivate(who: Identity) returns (pass: bool, ghost i: nat)
      requires Valid()
      modifies this
      ensures Valid() && old(s.log) <= s.log && i < |s.log| && s.log[i].key.who == who
      ensures pass == (s.log[i].count <= limit)
      ensures !late ==> (pass <==> Hits(s.log[..i], s.log[i].key) < limit)
      ensures !late ==> s.log[i].at / 60_000 == s.log[i].key.minute
      ensures old(s.now) / 60_000 == s.log[i].key.minute
    {
      var minute := s.now / WINDOW_MS;
      Wait(None);
      var remaining;
      pass, remaining, i := Check(Key(who, minute));
    }
  }

  lemma HitHere(s: State, i: nat)
    requires Inv(s) && i < |s.log|
    ensures HitOk(s.log, i)
  {
  }
}
