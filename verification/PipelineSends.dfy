/** How often a tenant hears about one phase of a transaction, in runs of any speed. */
module PipelineSends {
  import opened Wrappers
  import opened Decision
  import opened Pipeline
  import opened PipelineTheorems
  import opened PipelineAnyRun
  import opened PipelineSources
  import opened PipelineHolders

  function Message(tx: TxId, v: Verdict, token: Option<Token>): Payload {
    Payload(tx, v.status, IsOver18(v.status), token)
  }

  /** The request that a step of attempt a sends. */
  function Sends(s: State, e: Event, a: AttemptId): seq<Payload> {
    if e.Work? && e.w.Send? && e.a == a && a in s.attempts && s.attempts[a].pc.Dispatching? then
      [Message(s.attempts[a].job.tx, s.attempts[a].pc.v, s.attempts[a].pc.token)]
    else []
  }

  /** Every webhook request of the run that attempt a sent, in order. */
  function SentFrom(cfg: Settings, s0: State, run: seq<Event>, a: AttemptId): seq<Payload>
    requires Legal(cfg, s0, run)
    decreases |run|
  {
    if run == [] then []
    else SentFrom(cfg, s0, Front(run), a) + Sends(Final(cfg, s0, Front(run)), run[|run| - 1], a)
  }

  /** Every webhook request of the run that any attempt of that job sent, in order. */
  function SentFor(cfg: Settings, s0: State, run: seq<Event>, job: Job): seq<Payload>
    requires Legal(cfg, s0, run)
    decreases |run|
  {
    if run == [] then []
    else
      var s, e := Final(cfg, s0, Front(run)), run[|run| - 1];
      SentFor(cfg, s0, Front(run), job)
      + if e.Work? && e.a in s.attempts && s.attempts[e.a].job == job then Sends(s, e, e.a) else []
  }

  function MaxSends(cfg: Settings): int {
    if cfg.retries < 0 then 0 else cfg.retries + 1
  }

  predicate AllSame(ps: seq<Payload>) {
    forall i, j | 0 <= i < |ps| && 0 <= j < |ps| :: ps[i] == ps[j]
  }

  /** What the key holder of a job has sent when it stands at pc. */
  predicate SentBy(cfg: Settings, tx: TxId, pc: Pc, ps: seq<Payload>) {
    if Over(pc) then |ps| <= MaxSends(cfg) && AllSame(ps)
    else if pc.Dispatching? then
      |ps| == pc.tries && (pc.tries == 0 || pc.tries <= cfg.retries)
      && forall i | 0 <= i < |ps| :: ps[i] == Message(tx, pc.v, pc.token)
    else ps == []
  }

  lemma SendMoves(cfg: Settings, s: State, a: AttemptId, ok: bool, ps: seq<Payload>)
    requires WorkEnabled(cfg, s, a, Send(ok)) && SentBy(cfg, s.attempts[a].job.tx, s.attempts[a].pc, ps)
    ensures var pc := s.attempts[a].pc;
            SentBy(cfg, s.attempts[a].job.tx, DoSend(cfg, s, a, ok).attempts[a].pc,
                   ps + [Message(s.attempts[a].job.tx, pc.v, pc.token)])
  {
  }

  lemma OtherMoves(cfg: Settings, s: State, a: AttemptId, w: WorkEvent, ps: seq<Payload>)
    requires WorkEnabled(cfg, s, a, w) && !w.Start? && !w.Send?
    requires SentBy(cfg, s.attempts[a].job.tx, s.attempts[a].pc, ps)
    ensures a in WorkApply(cfg, s, a, w).attempts
    ensures SentBy(cfg, s.attempts[a].job.tx, WorkApply(cfg, s, a, w).attempts[a].pc, ps)
  {
    PcMoves(cfg, s, a, w);
    hide WorkApply, WorkEnabled;
  }

  /** Only a written record leads to sending, and nothing leads back into the try block. */
  lemma PcMoves(cfg: Settings, s: State, a: AttemptId, w: WorkEvent)
    requires WorkEnabled(cfg, s, a, w) && !w.Start? && !w.Send?
    ensures a in WorkApply(cfg, s, a, w).attempts
    ensures var pc, next := s.attempts[a].pc, WorkApply(cfg, s, a, w).attempts[a].pc;
            && (next.Dispatching? ==> pc.Recording? && next.tries == 0)
            && (Over(pc) || pc.Dispatching? ==> Over(next))
  {
    hide DecideVerification, FaceConfig, AfterTenant, Storable;
    if w.ReadTenant? {
      NoSendAfterTenant(cfg, s, a);
    } else if WritesTrail(w) {
      WriteMoves(cfg, s, a, w);
    }
  }

  lemma WriteMoves(cfg: Settings, s: State, a: AttemptId, w: WorkEvent)
    requires WorkEnabled(cfg, s, a, w) && WritesTrail(w) && !w.Send?
    ensures a in WorkApply(cfg, s, a, w).attempts
    ensures var pc, next := s.attempts[a].pc, WorkApply(cfg, s, a, w).attempts[a].pc;
            (next.Dispatching? ==> pc.Recording? && next.tries == 0) && !Over(pc) && !pc.Dispatching?
  {
    hide Storable;
    match w
    case IssueToken(token) => assert WorkApply(cfg, s, a, w) == DoIssue(s, a, token);
    case WriteAudit => assert WorkApply(cfg, s, a, w) == DoAudit(s, a);
    case WriteRecord => assert WorkApply(cfg, s, a, w) == DoRecord(s, a);
    case _ =>
  }

  lemma NoSendAfterTenant(cfg: Settings, s: State, a: AttemptId)
    requires WorkEnabled(cfg, s, a, ReadTenant)
    ensures !AfterTenant(cfg, s.attempts[a].pc, s.requiredAge[s.jobs[s.attempts[a].job]]).Dispatching?
  {
  }

  // ----- one attempt -----

  /** What an attempt has sent fits where it stands. */
  predicate Tells(cfg: Settings, s: State, a: AttemptId, ps: seq<Payload>) {
    if a in s.attempts then SentBy(cfg, s.attempts[a].job.tx, s.attempts[a].pc, ps) else ps == []
  }

  lemma StepTells(cfg: Settings, s: State, e: Event, a: AttemptId, ps: seq<Payload>)
    requires Enabled(cfg, s, e) && Tells(cfg, s, a, ps)
    ensures Tells(cfg, Apply(cfg, s, e), a, ps + Sends(s, e, a))
  {
    assert ps + [] == ps;
    if !e.Work? {
      QuietAttempts(cfg, s, e);
      hide Apply, Enabled, SentBy;
    } else {
      OneAttemptMoves(cfg, s, e.a, e.w);
      if e.a == a && !e.w.Start? { OwnTells(cfg, s, a, e.w, ps); }
      hide WorkApply, WorkEnabled, SentBy;
    }
  }

  lemma OwnTells(cfg: Settings, s: State, a: AttemptId, w: WorkEvent, ps: seq<Payload>)
    requires WorkEnabled(cfg, s, a, w) && !w.Start? && Tells(cfg, s, a, ps)
    ensures Tells(cfg, WorkApply(cfg, s, a, w), a, ps + Sends(s, Work(a, w), a))
  {
    assert ps + [] == ps;
    OneAttemptMoves(cfg, s, a, w);
    if w.Send? {
      SendMoves(cfg, s, a, w.ok, ps);
    } else {
      OtherMoves(cfg, s, a, w, ps);
    }
    hide SentBy;
  }

  lemma {:induction false} RunTells(cfg: Settings, s0: State, run: seq<Event>, a: AttemptId)
    requires FromStart(s0) && Legal(cfg, s0, run)
    ensures Tells(cfg, Final(cfg, s0, run), a, SentFrom(cfg, s0, run, a))
    decreases |run|
  {
    if run != [] {
      RunTells(cfg, s0, Front(run), a);
      hide Tells, Enabled, Apply, Sends;
      StepTells(cfg, Final(cfg, s0, Front(run)), run[|run| - 1], a, SentFrom(cfg, s0, Front(run), a));
    }
  }

  /** Over every legal run one attempt sends at most retries + 1 requests, all of them the same. */
  lemma AttemptBounded(cfg: Settings, s0: State, run: seq<Event>, a: AttemptId)
    requires FromStart(s0) && Legal(cfg, s0, run)
    ensures |SentFrom(cfg, s0, run, a)| <= MaxSends(cfg) && AllSame(SentFrom(cfg, s0, run, a))
  {
    RunTells(cfg, s0, run, a);
    hide Final, SentFrom;
  }

  // ----- one job -----

  /** With one holder, what was sent for the job is what the holder sent. */
  ghost predicate HolderTells(cfg: Settings, s0: State, run: seq<Event>, job: Job)
    requires Legal(cfg, s0, run)
  {
    var h := HoldersOf(Final(cfg, s0, run), job);
    SentFor(cfg, s0, run, job) == if h == [] then [] else SentFrom(cfg, s0, run, h[0].attempt)
  }

  lemma {:induction false} RunHolderTells(cfg: Settings, s0: State, run: seq<Event>, job: Job)
    requires FromStart(s0) && Legal(cfg, s0, run) && |HoldersOf(Final(cfg, s0, run), job)| <= 1
    ensures HolderTells(cfg, s0, run, job)
    decreases |run|
  {
    if run != [] {
      var s, t, e := Final(cfg, s0, Front(run)), Final(cfg, s0, run), run[|run| - 1];
      StepProgress(cfg, s, e);
      assert HoldersOf(s, job) <= HoldersOf(t, job);
      RunHolderTells(cfg, s0, Front(run), job);
      RunOrdered(cfg, s0, Front(run), job);
      hide Enabled, Apply, Progress, FaceFirst;
      if HoldersOf(s, job) == [] && HoldersOf(t, job) != [] { NewHolder(cfg, s0, run, job); }
    }
  }

  /** Whoever has just taken the key has sent nothing. */
  lemma NewHolder(cfg: Settings, s0: State, run: seq<Event>, job: Job)
    requires FromStart(s0) && run != [] && Legal(cfg, s0, run)
    requires HoldersOf(Final(cfg, s0, Front(run)), job) == [] && HoldersOf(Final(cfg, s0, run), job) != []
    ensures SentFrom(cfg, s0, run, HoldersOf(Final(cfg, s0, run), job)[0].attempt) == []
  {
    var s, e := Final(cfg, s0, Front(run)), run[|run| - 1];
    if !(e.Work? && e.w.Acquire?) { OnceUnmoved(cfg, s, e); }
    AcquirerIs(cfg, s, e.a, job);
    RunTells(cfg, s0, Front(run), e.a);
    hide Enabled, Apply;
  }

  lemma AcquirerIs(cfg: Settings, s: State, a: AttemptId, job: Job)
    requires WorkEnabled(cfg, s, a, Acquire)
    ensures HoldersOf(s, job) == [] && HoldersOf(DoAcquire(cfg, s, a), job) != [] ==>
              HoldersOf(DoAcquire(cfg, s, a), job)[0].attempt == a
  {
  }

  /** Over every legal run in which the key of a job was taken at most once, however many attempts and
      retries there are, the job is announced by at most retries + 1 requests, all of them the same. */
  lemma SendsBounded(cfg: Settings, s0: State, run: seq<Event>, job: Job)
    requires FromStart(s0) && Legal(cfg, s0, run) && |HoldersOf(Final(cfg, s0, run), job)| <= 1
    ensures |SentFor(cfg, s0, run, job)| <= MaxSends(cfg) && AllSame(SentFor(cfg, s0, run, job))
  {
    RunHolderTells(cfg, s0, run, job);
    var h := HoldersOf(Final(cfg, s0, run), job);
    if h != [] { AttemptBounded(cfg, s0, run, h[0].attempt); }
    hide Final, SentFor, SentFrom;
  }
}
