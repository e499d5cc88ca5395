/** The polling client of the external provider: a cached bearer token, and a loop that asks for
    one transaction until it is complete, the deadline has passed or the attempts are used up.
    The clock moves, and the provider answers anything, at every await. */
module CafClient {
  import opened Wrappers
  import opened CafMappers

  /** timeoutMs, pollIntervalMs, pollMaxAttempts. */
  datatype Config = Config(timeoutMs: int, pollIntervalMs: int, pollMaxAttempts: int)

  type Bearer = nat

  /** A call on the provider. A token is issued somewhere between question and answer, or refused; a
      GET remembers the instant of the check before it and the position of the token it carries. */
  datatype Call =
    | TokenCall(sentAt: int, issuedAt: int, answeredAt: int, expiresIn: int, bearer: Bearer)
    | TokenRefused(sentAt: int)
    | GetCall(checkedAt: int, sentAt: int, token: nat, cached: bool, answer: Option<Transaction>)

  datatype Token = Token(value: Bearer, expiresAtMs: int)

  datatype Failure = TimedOut | RequestFailed

  predicate TokenCallOk(c: Call) {
    c.TokenCall? ==> c.sentAt <= c.issuedAt <= c.answeredAt
  }

  /** The token of that call is still live at the issuer. */
  predicate LiveAtIssuer(c: Call, at: int)
    requires c.TokenCall?
  {
    at < c.issuedAt + c.expiresIn * 1000
  }

  /** A GET carries the token of an earlier call: a cached one only while its margin of 60
      seconds has not run out, a new one at the instant it came. */
  predicate GetOk(log: seq<Call>, i: nat)
    requires i < |log|
  {
    log[i].GetCall? ==>
      var g := log[i];
      && g.token < i && log[g.token].TokenCall? && g.checkedAt <= g.sentAt
      && (if g.cached then g.sentAt == g.checkedAt
            && g.sentAt < log[g.token].answeredAt + (log[g.token].expiresIn - 60) * 1000
          else g.token == i - 1 && log[g.token].sentAt == g.checkedAt && g.sentAt == log[g.token].answeredAt)
  }

  ghost predicate LogOk(log: seq<Call>) {
    forall i | 0 <= i < |log| :: TokenCallOk(log[i]) && GetOk(log, i)
  }

  /** A cached token is sent only while it is live at the issuer, provided the request for it
      took no more than the minute that the client keeps in reserve. */
  lemma CachedTokenIsLive(log: seq<Call>, i: nat)
    requires LogOk(log) && i < |log| && log[i].GetCall? && log[i].cached
    requires GetOk(log, i) && log[log[i].token].answeredAt - log[log[i].token].sentAt <= 60_000
    ensures LiveAtIssuer(log[log[i].token], log[i].sentAt)
  {
  }

  /** The reserve is exactly that minute: with a longer round trip there are instants at which
      the client still holds the token and the issuer does not. */
  lemma LongerRoundTripsCan(c: Call)
    requires c.TokenCall? && c.issuedAt == c.sentAt && c.answeredAt - c.sentAt > 60_000
    ensures var last := c.answeredAt + (c.expiresIn - 60) * 1000 - 1; !LiveAtIssuer(c, last)
  {
  }

  // ----- the polls of one awaitTransaction -----

  /** The GETs of the log from position from on. */
  function Gets(log: seq<Call>, from: nat): seq<Call>
    requires from <= |log|
    decreases |log| - from
  {
    if from == |log| then []
    else (if log[from].GetCall? then [log[from]] else []) + Gets(log, from + 1)
  }

  lemma {:induction false} GetsExtend(log: seq<Call>, from: nat, more: seq<Call>)
    requires from <= |log|
    ensures Gets(log + more, from) == Gets(log, from) + Gets(log + more, |log|)
    decreases |log| - from
  {
    if from < |log| {
      GetsExtend(log, from + 1, more);
      assert (log + more)[from] == log[from];
    }
  }

  /** Every service of the transaction is COMPLETED, and there is one. */
  predicate AllCompleted(tx: Transaction) {
    |tx.services| >= 1 && forall i | 0 <= i < |tx.services| :: tx.services[i].status == "COMPLETED"
  }

  /** A call that makes the client throw: no token, or no answer to a GET. */
  predicate Failed(c: Call) {
    c.TokenRefused? || (c.GetCall? && c.answer.None?)
  }

  lemma CompleteMeans(tx: Transaction)
    ensures IsComplete(tx) <==> AllCompleted(tx)
  {
  }

  predicate Unfinished(g: Call) {
    g.GetCall? && g.answer.Some? && !AllCompleted(g.answer.value)
  }

  /** Poll k was checked before the deadline, and the k waits before it have passed. */
  predicate PollOk(g: Call, k: nat, start: int, cfg: Config) {
    g.GetCall? && g.checkedAt < start + cfg.timeoutMs
    && (cfg.pollIntervalMs > 0 ==> start + k * cfg.pollIntervalMs <= g.checkedAt)
  }

  predicate AllUnfinished(gets: seq<Call>) {
    forall k | 0 <= k < |gets| :: Unfinished(gets[k])
  }

  predicate PollsOk(gets: seq<Call>, start: int, cfg: Config) {
    forall k | 0 <= k < |gets| :: PollOk(gets[k], k, start, cfg)
  }

  /** The GET goes out before the deadline of a polling loop that began at start. */
  predicate InTime(g: Call, start: int, cfg: Config)
    requires g.GetCall?
  {
    g.sentAt < start + cfg.timeoutMs
  }

  predicate AllInTime(gets: seq<Call>, start: int, cfg: Config) {
    forall k | 0 <= k < |gets| :: gets[k].GetCall? && InTime(gets[k], start, cfg)
  }

  /** The client would use that token as it is. */
  predicate StillGood(token: Option<Token>, now: int) {
    token.Some? && now < token.value.expiresAtMs
  }

  /** What a caller can see beforehand: no poll takes place at all, or the held token lasts for
      every poll that can, be it only one. */
  predicate NeverLate(token: Option<Token>, now: int, cfg: Config) {
    || cfg.timeoutMs <= 0 || cfg.pollMaxAttempts <= 0
    || (StillGood(token, now)
        && (now + cfg.timeoutMs <= token.value.expiresAtMs || cfg.pollMaxAttempts == 1
            || cfg.pollIntervalMs >= cfg.timeoutMs))
  }

  /** The cached token is that of call source, less the margin of 60 seconds. */
  predicate Held(log: seq<Call>, token: Option<Token>, source: nat) {
    token.Some? ==>
      && source < |log| && log[source].TokenCall? && token.value.value == log[source].bearer
      && token.value.expiresAtMs == log[source].answeredAt + (log[source].expiresIn - 60) * 1000
  }

  /** In every other case a slow provider makes a GET late: the loop checks the clock, the token
      request takes until the deadline, and the GET follows it. */
  lemma LatePollPossible(log: seq<Call>, token: Option<Token>, source: nat, start: int, cfg: Config, b: Bearer)
    returns (more: seq<Call>)
    requires LogOk(log) && Held(log, token, source) && !NeverLate(token, start, cfg)
    ensures LogOk(log + more)
    ensures var gets := Gets(log + more, |log|);
            && PollsOk(gets, start, cfg) && 1 <= |gets| <= cfg.pollMaxAttempts
            && AllUnfinished(gets[..|gets| - 1]) && !AllInTime(gets, start, cfg)
  {
    hide PollsOk, AllUnfinished, AllInTime, LogOk, Gets;
    var deadline := start + cfg.timeoutMs;
    if StillGood(token, start) {
      var next := if cfg.pollIntervalMs > 0 then start + cfg.pollIntervalMs else start;
      var asked := if token.value.expiresAtMs > next then token.value.expiresAtMs else next;
      var first := GetCall(start, start, source, true, Some(Transaction([])));
      var fetch, late := TokenCall(asked, asked, deadline, 3600, b), GetCall(asked, deadline, |log| + 1, false, None);
      more := [first, fetch, late];
      LogGrows(log, first);
      LogGrows(log + [first], fetch);
      LogGrows(log + [first] + [fetch], late);
      assert log + more == log + [first] + [fetch] + [late];
      LastThree(log, first, fetch, late);
      assert [first, late] == [] + [first] + [late];
      NoGets([], start, cfg);
      AddPoll([], first, start, cfg);
      AddPoll([] + [first], late, start, cfg);
      LateIsLate([first, late], start, cfg);
    } else {
      var fetch, late := TokenCall(start, start, deadline, 3600, b), GetCall(start, deadline, |log|, false, None);
      more := [fetch, late];
      LogGrows(log, fetch);
      LogGrows(log + [fetch], late);
      assert log + more == log + [fetch] + [late];
      LastTwo(log, fetch, late);
      assert [late] == [] + [late];
      NoGets([], start, cfg);
      AddPoll([], late, start, cfg);
      LateIsLate([late], start, cfg);
    }
  }

  lemma LateIsLate(gets: seq<Call>, start: int, cfg: Config)
    requires gets != [] && gets[|gets| - 1].GetCall? && !InTime(gets[|gets| - 1], start, cfg)
    ensures !AllInTime(gets, start, cfg)
  {
  }

  lemma LogGrows(log: seq<Call>, c: Call)
    requires LogOk(log) && TokenCallOk(c) && GetOk(log + [c], |log|)
    ensures LogOk(log + [c])
  {
    forall i | 0 <= i < |log + [c]| ensures TokenCallOk((log + [c])[i]) && GetOk(log + [c], i) {
      if i < |log| { assert TokenCallOk(log[i]) && GetOk(log, i); }
    }
  }

  lemma LastTwo(log: seq<Call>, fetch: Call, late: Call)
    requires fetch.TokenCall? && late.GetCall?
    ensures Gets(log + [fetch, late], |log|) == [late]
  {
    var l := log + [fetch, late];
    assert Gets(l, |log| + 2) == [] && Gets(l, |log| + 1) == [late];
  }

  lemma LastThree(log: seq<Call>, first: Call, fetch: Call, late: Call)
    requires first.GetCall? && fetch.TokenCall? && late.GetCall?
    ensures Gets(log + [first, fetch, late], |log|) == [first, late]
  {
    var l := log + [first, fetch, late];
    assert Gets(l, |log| + 3) == [] && Gets(l, |log| + 2) == [late] && Gets(l, |log| + 1) == [late];
  }

  /** Besides the attempts, the clock bounds the polls: all but one of them fit into the timeout. */
  lemma PollsFitTimeout(gets: seq<Call>, start: int, cfg: Config)
    requires PollsOk(gets, start, cfg) && cfg.pollIntervalMs > 0 && gets != []
    ensures (|gets| - 1) * cfg.pollIntervalMs < cfg.timeoutMs
  {
    assert PollOk(gets[|gets| - 1], |gets| - 1, start, cfg);
  }

  class Client {
    const cfg: Config
    var token: Option<Token>
    var now: int
    ghost var log: seq<Call>
    ghost var source: nat   // the call that the cached token came from

    ghost predicate Valid()
      reads this
    {
      LogOk(log) && Held(log, token, source)
    }

    constructor (cfg: Config, now: int)
      ensures Valid() && log == [] && token == None && this.cfg == cfg && this.now == now
    {
      this.cfg, this.now, token, log, source := cfg, now, None, [], 0;
    }

    /** authHeader: the cached token while it lasts, else a new one; a refused request throws. */
    method AuthHeader() returns (bearer: Option<Bearer>, ghost from: nat, ghost cached: bool)
      requires Valid()
      modifies this
      ensures Valid() && old(log) <= log && old(now) <= now
      ensures bearer.Some? ==> from < |log| && log[from].TokenCall? && bearer.value == log[from].bearer
      ensures bearer.Some? && cached ==>
                now == old(now) && log == old(log) && now < log[from].answeredAt + (log[from].expiresIn - 60) * 1000
      ensures bearer.Some? && !cached ==>
                |log| == |old(log)| + 1 && from == |old(log)| && log[from].sentAt == old(now)
                    && log[from].answeredAt == now
      ensures bearer.Some? ==>
                && token.Some? && token.value.value == bearer.value
                && token.value.expiresAtMs == log[from].answeredAt + (log[from].expiresIn - 60) * 1000
      ensures bearer.None? ==> log == old(log) + [TokenRefused(old(now))] && token == old(token)
      ensures StillGood(old(token), old(now)) ==> bearer.Some? && cached && token == old(token)
    {
      from, cached := source, true;
      if token.Some? && now < token.value.expiresAtMs {
        return Some(token.value.value), from, cached;
      }
      cached := false;
      var sentAt := now;
      var there: nat, back: nat :| true;
      now := now + there + back;
      var ok: bool := *;
      if !ok {
        log := log + [TokenRefused(sentAt)];
        assert forall i | 0 <= i < |log| - 1 :: GetOk(old(log), i) ==> GetOk(log, i);
        return None, from, cached;
      }
      var value: Bearer :| true;
      var expiresIn: int := *;
      token := Some(Token(value, now + (expiresIn - 60) * 1000));
      source := |log|;
      from := |log|;
      log := log + [TokenCall(sentAt, sentAt + there, now, expiresIn, value)];
      assert forall i | 0 <= i < |log| - 1 :: GetOk(old(log), i) ==> GetOk(log, i);
      return Some(value), from, cached;
    }

    /** getTransaction. */
    method GetTransaction() returns (answer: Option<Transaction>)
      requires Valid()
      modifies this
      ensures Valid() && old(log) <= log && old(now) <= now
      ensures answer.Some? ==>
                log != [] && Gets(log, |old(log)|) == [log[|log| - 1]] && log[|log| - 1].GetCall?
                && log[|log| - 1].checkedAt == old(now) && log[|log| - 1].answer == answer
      ensures answer.None? ==>
                var g := Gets(log, |old(log)|);
                && |old(log)| < |log| && Failed(log[|log| - 1])
                && (g == [] || (g == [log[|log| - 1]] && log[|log| - 1].GetCall?
                      && log[|log| - 1].checkedAt == old(now)))
                && (g == [] <==> log[|log| - 1].TokenRefused?)
      ensures StillGood(old(token), old(now)) ==>
                token == old(token) && log != [] && Gets(log, |old(log)|) == [log[|log| - 1]]
                && log[|log| - 1].GetCall? && log[|log| - 1].sentAt == old(now)
    {
      ghost var start := |log|;
      var bearer; ghost var from; ghost var cached;
      bearer, from, cached := AuthHeader();
      if bearer.None? {
        assert Gets(log, |log|) == [] && Gets(log, start) == [];
        return None;
      }
      answer := *;
      ghost var before := log;
      log := log + [GetCall(old(now), now, from, cached, answer)];
      assert forall i | 0 <= i < |log| - 1 :: GetOk(before, i) ==> GetOk(log, i);
      assert Gets(log, |log|) == [] && Gets(log, |log| - 1) == [log[|log| - 1]];
      var d: nat :| true;
      now := now + d;
    }

    /** awaitTransaction: at most pollMaxAttempts GETs, each checked before the deadline; it
        returns the first answer that is complete, and gives up only when all were unfinished. */
    method AwaitTransaction() returns (r: Result<Transaction, Failure>)
      requires Valid()
      modifies this
      ensures Valid() && old(log) <= log && old(now) <= now
      ensures var gets := Gets(log, |old(log)|);
              && PollsOk(gets, old(now), cfg)
              && (gets != [] ==> |gets| <= cfg.pollMaxAttempts)
              && (r.Ok? ==> gets != [] && gets[|gets| - 1].answer == Some(r.value) && AllCompleted(r.value)
                            && AllUnfinished(gets[..|gets| - 1]))
              && (r == Err(RequestFailed) ==>
                    && |old(log)| < |log| && Failed(log[|log| - 1])
                    && AllUnfinished(if log[|log| - 1].GetCall? && gets != [] then gets[..|gets| - 1] else gets))
              && (r == Err(TimedOut) ==>
                    AllUnfinished(gets)
                    && (now >= old(now) + cfg.timeoutMs
                        || |gets| == if cfg.pollMaxAttempts < 0 then 0 else cfg.pollMaxAttempts))
              && (NeverLate(old(token), old(now), cfg) ==> AllInTime(gets, old(now), cfg))
    {
      hide Gets, LogOk, IsComplete, AllCompleted, PollOk, PollsOk, AllUnfinished, AllInTime, Unfinished;
      var deadline := now + cfg.timeoutMs;
      ghost var start, base, gets := now, |log|, [];
      ghost var lasts := NeverLate(token, now, cfg);
      NoGets(log, start, cfg);
      var attempt := 0;
      while attempt < cfg.pollMaxAttempts
        invariant Valid() && old(log) <= log && base <= |log| && start <= now
        invariant gets == Gets(log, base) && |gets| == attempt && PollsOk(gets, start, cfg) && AllUnfinished(gets)
        invariant cfg.pollIntervalMs > 0 ==> start + attempt * cfg.pollIntervalMs <= now
        invariant attempt == 0 || attempt <= cfg.pollMaxAttempts
        invariant attempt == 0 ==> now == start && token == old(token)
        invariant attempt >= 1 && cfg.pollIntervalMs > 0 ==> start + cfg.pollIntervalMs <= now
        invariant lasts ==> AllInTime(gets, start, cfg) && (attempt >= 1 ==> token == old(token))
      {
        if now >= deadline { break; }
        ghost var before := log;
        var answer := GetTransaction();
        Extended(before, log, base);
        if answer.None? {
          if Gets(log, |before|) == [] {
            assert Gets(log, base) == gets;
          } else {
            AddPoll(gets, log[|log| - 1], start, cfg);
            assert Gets(log, base)[..|gets|] == gets;
          }
          return Err(RequestFailed);
        }
        AddPoll(gets, log[|log| - 1], start, cfg);
        CompleteMeans(answer.value);
        if IsComplete(answer.value) { return Ok(answer.value); }
        gets := gets + [log[|log| - 1]];
        if cfg.pollIntervalMs > 0 {
          var d: nat :| d >= cfg.pollIntervalMs;
          now := now + d;
        }
        attempt := attempt + 1;
      }
      return Err(TimedOut);
    }
  }

  lemma NoGets(log: seq<Call>, start: int, cfg: Config)
    ensures Gets(log, |log|) == [] && PollsOk([], start, cfg) && AllUnfinished([]) && AllInTime([], start, cfg)
  {
  }

  /** One more poll keeps what was true of all, if it is true of the new one. */
  lemma AddPoll(gets: seq<Call>, g: Call, start: int, cfg: Config)
    requires PollsOk(gets, start, cfg) && AllUnfinished(gets) && g.GetCall? && g.checkedAt < start + cfg.timeoutMs
    requires cfg.pollIntervalMs > 0 ==> start + |gets| * cfg.pollIntervalMs <= g.checkedAt
    ensures PollsOk(gets + [g], start, cfg) && AllUnfinished((gets + [g])[..|gets|])
    ensures g.answer.Some? && !AllCompleted(g.answer.value) ==> AllUnfinished(gets + [g])
    ensures AllInTime(gets, start, cfg) && g.sentAt < start + cfg.timeoutMs ==> AllInTime(gets + [g], start, cfg)
  {
    hide AllCompleted;
    assert PollOk(g, |gets|, start, cfg);
    assert (gets + [g])[..|gets|] == gets;
  }

  lemma Extended(before: seq<Call>, after: seq<Call>, base: nat)
    requires before <= after && base <= |before|
    ensures Gets(after, base) == Gets(before, base) + Gets(after, |before|)
  {
    GetsExtend(before, base, after[|before|..]);
    assert before + after[|before|..] == after;
  }
}
