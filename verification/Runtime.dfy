/** The running deployment: shared tables that every step of every participant updates in place.
    Code that waits lets the other participants take any number of legal steps of their own. */
module Runtime {
  import opened Pipeline
  import opened PipelineTheorems
  import opened PipelineAnyRun
  import opened PipelinePaths
  import Quota

  /** What the others leave alone. */
  predicate Untouched(s: State, t: State, me: Self) {
    match me
    case Worker(a) => (a in t.attempts <==> a in s.attempts) && (a in s.attempts ==> t.attempts[a] == s.attempts[a])
    case Handler(r) => (r in t.requests <==> r in s.requests) && (r in s.requests ==> t.requests[r] == s.requests[r])
    case QuotaCall(c) =>
      && (c in t.quota.calls <==> c in s.quota.calls) && (c in s.quota.calls ==> t.quota.calls[c] == s.quota.calls[c])
      && (c !in s.payments.Values ==> c !in t.payments.Values)
  }

  lemma WorkLeavesMe(cfg: Settings, s: State, a: AttemptId, w: WorkEvent, me: Self)
    requires WorkEnabled(cfg, s, a, w) && ByOther(Work(a, w), me)
    ensures Untouched(s, WorkApply(cfg, s, a, w), me)
  {
    OneAttemptMoves(cfg, s, a, w);
    WorkLeavesDesk(cfg, s, a, w);
    hide WorkApply, WorkEnabled;
  }

  lemma HttpFrame(cfg: Settings, s: State, r: RequestId, h: HttpEvent)
    requires HttpEnabled(cfg, s, r, h)
    ensures var t := HttpApply(cfg, s, r, h);
            && r in t.requests && t.requests == s.requests[r := t.requests[r]]
            && t.attempts == s.attempts && t.quota == s.quota && t.payments == s.payments
  {
  }

  lemma OthersLeaveMe(cfg: Settings, s: State, e: Event, me: Self)
    requires Enabled(cfg, s, e) && ByOther(e, me)
    ensures Untouched(s, Apply(cfg, s, e), me)
  {
    hide WorkApply, WorkEnabled, HttpApply, HttpEnabled;
    match e
    case Work(a, w) => WorkLeavesMe(cfg, s, a, w, me);
    case Http(r, h) => HttpFrame(cfg, s, r, h);
    case OpenSession(_, _, _, _) => OpenLeavesMe(cfg, s, e, me);
    case _ =>
  }

  lemma OpenLeavesMe(cfg: Settings, s: State, e: Event, me: Self)
    requires Enabled(cfg, s, e) && e.OpenSession? && ByOther(e, me)
    ensures Untouched(s, Apply(cfg, s, e), me)
  {
  }

  lemma UntouchedChains(s: State, t: State, u: State, me: Self)
    requires Untouched(s, t, me) && Untouched(t, u, me)
    ensures Untouched(s, u, me)
  {
  }

  class Deployment {
    const cfg: Settings
    ghost const start: State
    var s: State
    ghost var history: seq<Event>
    ghost var faults: nat   // awaited calls that threw, and processes that died

    ghost predicate Valid()
      reads this
    {
      FromStart(start) && Legal(cfg, start, history) && s == Final(cfg, start, history)
    }

    /** Service start, with the tenants as they are. */
    constructor (cfg: Settings, now: int, plans: map<TenantId, Quota.Plan>, ages: map<TenantId, int>)
      ensures Valid() && this.cfg == cfg && history == [] && s == start == Initial(now, plans, ages)
    {
      this.cfg, start, history, faults := cfg, Initial(now, plans, ages), [], 0;
      s := Initial(now, plans, ages);
    }

    /** One participant takes one step. */
    method Step(e: Event)
      requires Valid() && Enabled(cfg, s, e)
      modifies this`s, this`history
      ensures Valid() && s == Apply(cfg, old(s), e) && history == old(history) + [e]
    {
      hide Enabled, Apply;
      s := Apply(cfg, s, e);
      history := history + [e];
      assert Front(history) == old(history);
    }

    /** The others run for a while. */
    method Wait(me: Self)
      requires Valid()
      modifies this`s, this`history
      ensures Valid() && old(history) <= history && Untouched(old(s), s, me) && Progress(old(s), s)
      ensures Own(history, me) == Own(old(history), me)
    {
      Idle(s);
      assert Untouched(s, s, me);
      hide Enabled, Apply, Legal, Final, Progress, Valid, Untouched, Own, ByOther;
      var n :| n >= 0;
      for i := 0 to n
        invariant Valid() && old(history) <= history && Untouched(old(s), s, me) && Progress(old(s), s)
        invariant Own(history, me) == Own(old(history), me)
      {
        var e: Event := *;
        if Enabled(cfg, s, e) && ByOther(e, me) {
          ghost var before := s;
          OwnNext(history, e, me);
          OthersLeaveMe(cfg, s, e, me);
          StepProgress(cfg, s, e);
          Step(e);
          ProgressChains(old(s), before, s);
          UntouchedChains(old(s), before, s, me);
        }
      }
    }
  }
}
