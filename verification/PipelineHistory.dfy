/** What stands in the tables, told by the events of the run alone: which sessions and document sessions
    are open, which discards are recorded, and which age a tenant requires. In every legal run. */
module PipelineHistory {
  import opened Wrappers
  import opened Pipeline
  import opened PipelineTheorems
  import opened PipelineAnyRun
  import opened PipelineDeadlines
  import opened PipelineSources
  import Quota

  // ----- sessions -----

  ghost predicate Opened(run: seq<Event>, token: Token) {
    exists call, userHash, policyVersion :: OpenSession(call, token, userHash, policyVersion) in run
  }

  ghost predicate Taken(run: seq<Event>, token: Token) {
    exists r :: Http(r, TakeSession(token)) in run
  }

  predicate Opens(e: Event, token: Token) {
    e.OpenSession? && e.token == token
  }

  predicate Takes(e: Event, token: Token) {
    e.Http? && e.h == TakeSession(token)
  }

  lemma NextOpened(run: seq<Event>, token: Token)
    requires run != []
    ensures Opened(run, token) <==> Opened(Front(run), token) || Opens(run[|run| - 1], token)
    ensures Taken(run, token) <==> Taken(Front(run), token) || Takes(run[|run| - 1], token)
  {
    var e := run[|run| - 1];
    assert run == Front(run) + [e];
    if Opens(e, token) { assert OpenSession(e.call, token, e.userHash, e.policyVersion) in run; }
    if Takes(e, token) { assert Http(e.r, TakeSession(token)) in run; }
  }

  lemma StepSessions(cfg: Settings, s: State, e: Event, token: Token)
    requires Enabled(cfg, s, e)
    ensures var t := Apply(cfg, s, e);
            && (token in t.sessions <==> (token in s.sessions && !Takes(e, token)) || Opens(e, token))
            && (Takes(e, token) ==> token in s.sessions) && (Opens(e, token) ==> token !in s.tokens)
            && s.tokens <= t.tokens && (Opens(e, token) ==> token in t.tokens)
  {
    match e
    case Work(a, w) =>
      WorkLeavesDesk(cfg, s, a, w);
      hide WorkApply, WorkEnabled;
    case Http(r, h) => HttpSessions(cfg, s, r, h);
    case _ =>
  }

  lemma HttpSessions(cfg: Settings, s: State, r: RequestId, h: HttpEvent)
    requires HttpEnabled(cfg, s, r, h)
    ensures var t := HttpApply(cfg, s, r, h);
            && t.sessions == (if h.TakeSession? then s.sessions - {h.token} else s.sessions) && t.tokens == s.tokens
            && (h.TakeSession? ==> h.token in s.sessions)
  {
  }

  /** A session is open exactly when it was opened and no request has taken it. */
  lemma {:induction false} SessionsExact(cfg: Settings, s0: State, run: seq<Event>, token: Token)
    requires FromStart(s0) && Legal(cfg, s0, run)
    ensures token in Final(cfg, s0, run).sessions <==> Opened(run, token) && !Taken(run, token)
    ensures Taken(run, token) ==> Opened(run, token)
    ensures Opened(run, token) ==> token in Final(cfg, s0, run).tokens
    decreases |run|
  {
    if run != [] {
      SessionsExact(cfg, s0, Front(run), token);
      NextOpened(run, token);
      StepSessions(cfg, Final(cfg, s0, Front(run)), run[|run| - 1], token);
      hide Enabled, Apply, Opened, Taken;
    }
  }

  // ----- document sessions -----

  ghost predicate Issued(run: seq<Event>, token: Token) {
    exists a :: Work(a, IssueToken(token)) in run
  }

  ghost predicate Presented(run: seq<Event>, token: Token) {
    exists r :: Http(r, TakeDocumentSession(token)) in run
  }

  predicate Issues(e: Event, token: Token) {
    e.Work? && e.w == IssueToken(token)
  }

  predicate Presents(e: Event, token: Token) {
    e.Http? && e.h == TakeDocumentSession(token)
  }

  lemma NextIssued(run: seq<Event>, token: Token)
    requires run != []
    ensures Issued(run, token) <==> Issued(Front(run), token) || Issues(run[|run| - 1], token)
    ensures Presented(run, token) <==> Presented(Front(run), token) || Presents(run[|run| - 1], token)
  {
    var e := run[|run| - 1];
    assert run == Front(run) + [e];
    if Issues(e, token) { assert Work(e.a, IssueToken(token)) in run; }
    if Presents(e, token) { assert Http(e.r, TakeDocumentSession(token)) in run; }
  }

  lemma StepDocumentSessions(cfg: Settings, s: State, e: Event, token: Token)
    requires Enabled(cfg, s, e)
    ensures var t := Apply(cfg, s, e);
            && (token in t.documentSessions
                <==> (token in s.documentSessions && !Presents(e, token)) || Issues(e, token))
            && (Presents(e, token) ==> token in s.documentSessions) && (Issues(e, token) ==> token !in s.tokens)
            && s.tokens <= t.tokens && (Issues(e, token) ==> token in t.tokens)
  {
    match e
    case Work(a, w) =>
      WorkLeavesDesk(cfg, s, a, w);
      WorkDocumentSessions(cfg, s, a, w);
      hide WorkApply, WorkEnabled;
    case Http(r, h) => HttpDocumentSessions(cfg, s, r, h);
    case _ =>
  }

  lemma WorkDocumentSessions(cfg: Settings, s: State, a: AttemptId, w: WorkEvent)
    requires WorkEnabled(cfg, s, a, w)
    ensures var t := WorkApply(cfg, s, a, w);
            && t.documentSessions.Keys == (s.documentSessions.Keys + if w.IssueToken? then {w.token} else {})
            && (w.IssueToken? ==> w.token !in s.tokens && w.token in t.tokens)
  {
    if w.IssueToken? {
      assert WorkApply(cfg, s, a, w) == DoIssue(s, a, w.token);
    } else {
      DocumentSessionsStay(cfg, s, a, w);
      hide WorkApply, WorkEnabled;
    }
  }

  lemma HttpDocumentSessions(cfg: Settings, s: State, r: RequestId, h: HttpEvent)
    requires HttpEnabled(cfg, s, r, h)
    ensures var t := HttpApply(cfg, s, r, h);
            && t.documentSessions
               == (if h.TakeDocumentSession? then s.documentSessions - {h.token} else s.documentSessions)
            && t.tokens == s.tokens && (h.TakeDocumentSession? ==> h.token in s.documentSessions)
  {
  }

  /** A document session is open exactly when it was issued and no request has taken it. */
  lemma {:induction false} DocumentSessionsExact(cfg: Settings, s0: State, run: seq<Event>, token: Token)
    requires FromStart(s0) && Legal(cfg, s0, run)
    ensures token in Final(cfg, s0, run).documentSessions <==> Issued(run, token) && !Presented(run, token)
    ensures Presented(run, token) ==> Issued(run, token)
    ensures Issued(run, token) ==> token in Final(cfg, s0, run).tokens
    decreases |run|
  {
    if run != [] {
      DocumentSessionsExact(cfg, s0, Front(run), token);
      NextIssued(run, token);
      StepDocumentSessions(cfg, Final(cfg, s0, Front(run)), run[|run| - 1], token);
      hide Enabled, Apply, Issued, Presented;
    }
  }

  // ----- discards -----

  /** Event i records the discard of that job. */
  predicate RecordsDiscard(cfg: Settings, s0: State, run: seq<Event>, i: int, job: Job) {
    && 0 <= i < |run| && Legal(cfg, s0, run[..i]) && run[i].Work? && run[i].w == Discard(true)
    && var s := Final(cfg, s0, run[..i]); run[i].a in s.attempts && s.attempts[run[i].a].job == job
  }

  ghost predicate Discarded(cfg: Settings, s0: State, run: seq<Event>, job: Job) {
    exists i :: RecordsDiscard(cfg, s0, run, i, job)
  }

  lemma StepDiscards(cfg: Settings, s: State, e: Event, job: Job)
    requires Enabled(cfg, s, e)
    ensures job in Apply(cfg, s, e).discards <==>
              job in s.discards
              || (e.Work? && e.w == Discard(true) && e.a in s.attempts && s.attempts[e.a].job == job)
  {
    match e
    case Work(a, w) => WorkDiscards(cfg, s, a, w);
    case Http(r, h) => HttpDiscards(cfg, s, r, h);
    case _ =>
  }

  lemma WorkDiscards(cfg: Settings, s: State, a: AttemptId, w: WorkEvent)
    requires WorkEnabled(cfg, s, a, w)
    ensures w == Discard(true) ==>
              a in s.attempts && WorkApply(cfg, s, a, w).discards == s.discards + {s.attempts[a].job}
    ensures w != Discard(true) ==> WorkApply(cfg, s, a, w).discards == s.discards
  {
    hide AfterTenant, Found, Storable;
  }

  lemma HttpDiscards(cfg: Settings, s: State, r: RequestId, h: HttpEvent)
    requires HttpEnabled(cfg, s, r, h)
    ensures HttpApply(cfg, s, r, h).discards == s.discards
  {
  }

  /** There is a discard row for a job exactly when some attempt of it has written one. */
  lemma {:induction false} DiscardsExact(cfg: Settings, s0: State, run: seq<Event>, job: Job)
    requires FromStart(s0) && Legal(cfg, s0, run)
    ensures job in Final(cfg, s0, run).discards <==> Discarded(cfg, s0, run, job)
    decreases |run|
  {
    if run != [] {
      DiscardsExact(cfg, s0, Front(run), job);
      StepDiscards(cfg, Final(cfg, s0, Front(run)), run[|run| - 1], job);
      hide Enabled, Apply, Legal, Final;
      NextDiscard(cfg, s0, run, job);
    }
  }

  lemma NextDiscard(cfg: Settings, s0: State, run: seq<Event>, job: Job)
    requires run != []
    ensures Discarded(cfg, s0, run, job) <==>
              Discarded(cfg, s0, Front(run), job) || RecordsDiscard(cfg, s0, run, |run| - 1, job)
  {
    hide Legal, Final;
    forall i | 0 <= i < |Front(run)|
      ensures RecordsDiscard(cfg, s0, run, i, job) <==> RecordsDiscard(cfg, s0, Front(run), i, job)
    {
      assert Front(run)[..i] == run[..i];
    }
  }

  // ----- required ages -----

  /** The age that was last set for the tenant, or the one it had when the service started. */
  function AgeSet(s0: State, run: seq<Event>, tenant: TenantId): Option<int>
    decreases |run|
  {
    if run == [] then if tenant in s0.requiredAge then Some(s0.requiredAge[tenant]) else None
    else
      var e := run[|run| - 1];
      if e.SetRequiredAge? && e.tenant == tenant then Some(e.age) else AgeSet(s0, Front(run), tenant)
  }

  lemma StepAges(cfg: Settings, s: State, e: Event)
    requires Enabled(cfg, s, e)
    ensures Apply(cfg, s, e).requiredAge
            == if e.SetRequiredAge? then s.requiredAge[e.tenant := e.age] else s.requiredAge
  {
    match e
    case Work(a, w) => WorkAges(cfg, s, a, w);
    case Http(r, h) => HttpAges(cfg, s, r, h);
    case _ =>
  }

  lemma WorkAges(cfg: Settings, s: State, a: AttemptId, w: WorkEvent)
    requires WorkEnabled(cfg, s, a, w)
    ensures WorkApply(cfg, s, a, w).requiredAge == s.requiredAge
  {
    hide AfterTenant, Found, Storable;
  }

  lemma HttpAges(cfg: Settings, s: State, r: RequestId, h: HttpEvent)
    requires HttpEnabled(cfg, s, r, h)
    ensures HttpApply(cfg, s, r, h).requiredAge == s.requiredAge
  {
  }

  lemma {:induction false} AgesExact(cfg: Settings, s0: State, run: seq<Event>, tenant: TenantId)
    requires Legal(cfg, s0, run)
    ensures var ages := Final(cfg, s0, run).requiredAge;
            AgeSet(s0, run, tenant) == if tenant in ages then Some(ages[tenant]) else None
    decreases |run|
  {
    if run != [] {
      AgesExact(cfg, s0, Front(run), tenant);
      StepAges(cfg, Final(cfg, s0, Front(run)), run[|run| - 1]);
      hide Enabled, Apply;
    }
  }

  /** What an attempt reads as the required age is what was last set for the tenant of its transaction. */
  lemma ReadIsLastSet(cfg: Settings, s0: State, run: seq<Event>, i: int, tx: TxId, phase: Phase, age: int)
    requires TenantRead(cfg, s0, run, i, tx, phase, age)
    ensures AgeSet(s0, run[..i], Final(cfg, s0, run[..i]).trails[tx].tenant) == Some(age)
  {
    AgesExact(cfg, s0, run[..i], Final(cfg, s0, run[..i]).trails[tx].tenant);
    hide Legal, Final;
  }

  // ----- plans -----

  /** The plan that the tenant was last changed to, or the one it had when the service started. */
  function PlanSet(s0: State, run: seq<Event>, tenant: TenantId): Option<Quota.Plan>
    decreases |run|
  {
    if run == [] then if tenant in s0.quota.plans then Some(s0.quota.plans[tenant]) else None
    else
      var e := run[|run| - 1];
      if e.QuotaStep? && e.q.ChangePlan? && e.q.tenant == tenant then Some(e.q.plan)
      else PlanSet(s0, Front(run), tenant)
  }

  lemma StepPlans(cfg: Settings, s: State, e: Event)
    requires Enabled(cfg, s, e)
    ensures Apply(cfg, s, e).quota.plans
            == if e.QuotaStep? && e.q.ChangePlan? then s.quota.plans[e.q.tenant := e.q.plan] else s.quota.plans
  {
    match e
    case Work(a, w) =>
      WorkLeavesDesk(cfg, s, a, w);
      hide WorkApply, WorkEnabled;
    case Http(r, h) => HttpPlans(cfg, s, r, h);
    case _ =>
  }

  lemma HttpPlans(cfg: Settings, s: State, r: RequestId, h: HttpEvent)
    requires HttpEnabled(cfg, s, r, h)
    ensures HttpApply(cfg, s, r, h).quota == s.quota
  {
  }

  /** A tenant is on the plan that it was last changed to. */
  lemma {:induction false} PlansExact(cfg: Settings, s0: State, run: seq<Event>, tenant: TenantId)
    requires Legal(cfg, s0, run)
    ensures var plans := Final(cfg, s0, run).quota.plans;
            PlanSet(s0, run, tenant) == if tenant in plans then Some(plans[tenant]) else None
    decreases |run|
  {
    if run != [] {
      PlansExact(cfg, s0, Front(run), tenant);
      StepPlans(cfg, Final(cfg, s0, Front(run)), run[|run| - 1]);
      hide Enabled, Apply;
    }
  }
}
