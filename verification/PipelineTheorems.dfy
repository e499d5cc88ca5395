/** What holds of every run of the pipeline. */
module PipelineTheorems {
  import opened Wrappers
  import opened Decision
  import opened Pipeline
  import opened PipelineInvariant
  import opened PipelineWorkers
  import opened PipelineRequests
  import FrameStore

  // ----- one step -----

  /** Every timely step keeps the invariant. */
  lemma StepKeepsInv(cfg: Settings, s: State, e: Event)
    requires Inv(cfg, s) && Enabled(cfg, s, e) && Timely(cfg, s, e)
    ensures Inv(cfg, Apply(cfg, s, e))
  {
    hide Inv;
    match e
    case Http(r, h) => KeepHttp(cfg, s, r, h);
    case Work(a, w) => KeepWork(cfg, s, a, w);
    case _ => KeepQuiet(cfg, s, Apply(cfg, s, e));
  }

  // ----- runs -----

  function Front(run: seq<Event>): seq<Event>
    requires run != []
  {
    run[..|run| - 1]
  }

  predicate Legal(cfg: Settings, s0: State, run: seq<Event>)
    decreases |run|, 0
  {
    run == [] || (Legal(cfg, s0, Front(run)) && Enabled(cfg, Final(cfg, s0, Front(run)), run[|run| - 1]))
  }

  function Final(cfg: Settings, s0: State, run: seq<Event>): State
    requires Legal(cfg, s0, run)
    decreases |run|, 1
  {
    if run == [] then s0 else Apply(cfg, Final(cfg, s0, Front(run)), run[|run| - 1])
  }

  /** Every acquire of the run comes soon enough after its get. */
  predicate TimelyRun(cfg: Settings, s0: State, run: seq<Event>)
    requires Legal(cfg, s0, run)
    decreases |run|
  {
    run == [] || (TimelyRun(cfg, s0, Front(run)) && Timely(cfg, Final(cfg, s0, Front(run)), run[|run| - 1]))
  }

  lemma {:induction false} RunKeepsInv(cfg: Settings, s0: State, run: seq<Event>)
    requires Legal(cfg, s0, run) && TimelyRun(cfg, s0, run) && Inv(cfg, s0)
    ensures Inv(cfg, Final(cfg, s0, run))
    decreases |run|
  {
    hide Inv, Enabled, Timely, Apply;
    if run != [] {
      RunKeepsInv(cfg, s0, Front(run));
      StepKeepsInv(cfg, Final(cfg, s0, Front(run)), run[|run| - 1]);
    }
  }

  /** A timely run from empty tables. */
  predicate GoodRun(cfg: Settings, s0: State, run: seq<Event>) {
    s0 == Initial(s0.now, s0.quota.plans, s0.requiredAge) && Legal(cfg, s0, run) && TimelyRun(cfg, s0, run)
  }

  lemma InitialInv(cfg: Settings, s0: State)
    requires s0 == Initial(s0.now, s0.quota.plans, s0.requiredAge)
    ensures Inv(cfg, s0)
  {
  }

  lemma RunInv(cfg: Settings, s0: State, run: seq<Event>)
    requires GoodRun(cfg, s0, run)
    ensures Inv(cfg, Final(cfg, s0, run))
  {
    InitialInv(cfg, s0);
    RunKeepsInv(cfg, s0, run);
  }

  lemma Prefixes(cfg: Settings, s0: State, run: seq<Event>, k: nat)
    requires Legal(cfg, s0, run) && k <= |run|
    ensures Legal(cfg, s0, run[..k])
    ensures TimelyRun(cfg, s0, run) ==> TimelyRun(cfg, s0, run[..k])
    decreases |run|
  {
    if k < |run| {
      assert run[..k] == Front(run)[..k];
      Prefixes(cfg, s0, Front(run), k);
    } else {
      assert run[..k] == run;
    }
  }

  // ----- what only ever grows -----

  predicate Longer(u: Trail, v: Trail) {
    && v.tenant == u.tenant && v.session == u.session
    && u.issued <= v.issued && u.audits <= v.audits && u.records <= v.records && u.sent <= v.sent
  }

  /** Past the try block. */
  predicate Over(pc: Pc) {
    pc.Deleting? || pc.DeletingSelfie? || pc.Discarding? || pc.Done? || pc.Failed? || pc.Dead?
  }

  ghost predicate Progress(s: State, t: State) {
    && (forall tx | tx in s.trails :: tx in t.trails && Longer(s.trails[tx], t.trails[tx]))
    && (forall a | a in s.attempts :: a in t.attempts && t.attempts[a].job == s.attempts[a].job
          && (s.attempts[a].pc.Done? ==> t.attempts[a].pc.Done?)
          && (Over(s.attempts[a].pc) ==> Over(t.attempts[a].pc)))
    && (forall job: Job :: HoldersOf(s, job) <= HoldersOf(t, job))
    && s.discards <= t.discards && s.jobs.Keys <= t.jobs.Keys && s.puts.Keys <= t.puts.Keys
  }

  lemma HttpShape(cfg: Settings, s: State, r: RequestId, h: HttpEvent)
    requires HttpEnabled(cfg, s, r, h)
    ensures var t := HttpApply(cfg, s, r, h);
            && t.once == s.once && t.holders == s.holders && t.attempts == s.attempts && t.discards == s.discards
            && s.jobs.Keys <= t.jobs.Keys && s.puts.Keys <= t.puts.Keys
  {
    match h
    case TakeSession(token) =>
    case Admit(tx) =>
    case PutFrame(_) =>
    case EnqueueFace =>
    case TakeDocumentSession(token) =>
    case AdmitDocument =>
    case PutDocument(_) =>
    case PutSelfie(_) =>
    case EnqueueDocument =>
    case Reject =>
  }

  lemma HttpTrails(cfg: Settings, s: State, r: RequestId, h: HttpEvent, tx: TxId)
    requires HttpEnabled(cfg, s, r, h) && tx in s.trails
    ensures var t := HttpApply(cfg, s, r, h); tx in t.trails && Longer(s.trails[tx], t.trails[tx])
  {
  }

  lemma HttpProgress(cfg: Settings, s: State, r: RequestId, h: HttpEvent)
    requires HttpEnabled(cfg, s, r, h)
    ensures Progress(s, HttpApply(cfg, s, r, h))
    ensures var t := HttpApply(cfg, s, r, h);
            t.once == s.once && t.holders == s.holders && t.attempts == s.attempts
  {
    HttpShape(cfg, s, r, h);
    forall tx | tx in s.trails
      ensures tx in HttpApply(cfg, s, r, h).trails && Longer(s.trails[tx], HttpApply(cfg, s, r, h).trails[tx]) {
      HttpTrails(cfg, s, r, h, tx);
    }
    hide HttpApply, HttpEnabled;
  }

  /** One attempt moves; its trail may get longer, everything else only grows. */
  lemma MoveProgress(s: State, t: State, a: AttemptId)
    requires a in s.attempts && a in t.attempts && s.attempts[a].job.tx in s.trails
    requires t.attempts == s.attempts[a := t.attempts[a]] && t.attempts[a].job == s.attempts[a].job
    requires !s.attempts[a].pc.Done? && (Over(s.attempts[a].pc) ==> Over(t.attempts[a].pc))
    requires t.jobs == s.jobs && t.puts == s.puts && s.discards <= t.discards && t.holders == s.holders
    requires s.attempts[a].job.tx in t.trails
    requires t.trails == s.trails[s.attempts[a].job.tx := t.trails[s.attempts[a].job.tx]]
    requires Longer(s.trails[s.attempts[a].job.tx], t.trails[s.attempts[a].job.tx])
    ensures Progress(s, t)
  {
  }

  lemma QuietProgress(s: State, t: State, a: AttemptId)
    requires a in s.attempts && a in t.attempts
    requires t.attempts == s.attempts[a := t.attempts[a]] && t.attempts[a].job == s.attempts[a].job
    requires !s.attempts[a].pc.Done? && (Over(s.attempts[a].pc) ==> Over(t.attempts[a].pc))
    requires t.jobs == s.jobs && t.puts == s.puts && s.discards <= t.discards && t.trails == s.trails
    requires forall job: Job :: HoldersOf(s, job) <= HoldersOf(t, job)
    ensures Progress(s, t)
  {
  }

  lemma OneAttemptMoves(cfg: Settings, s: State, a: AttemptId, w: WorkEvent)
    requires WorkEnabled(cfg, s, a, w)
    ensures var t := WorkApply(cfg, s, a, w);
            && a in t.attempts && t.attempts == s.attempts[a := t.attempts[a]]
            && (a in s.attempts ==> t.attempts[a].job == s.attempts[a].job)
  {
  }

  predicate WritesTrail(w: WorkEvent) {
    w.IssueToken? || w.WriteAudit? || w.WriteRecord? || w.Send?
  }

  /** What no step of a processor touches. */
  predicate SameDesk(s: State, t: State) {
    && t.payments == s.payments && t.consents == s.consents && t.sessions == s.sessions && t.consumed == s.consumed
    && s.tokens <= t.tokens && t.quota == s.quota && t.requests == s.requests && t.trails.Keys == s.trails.Keys
  }

  lemma WriteLeavesDesk(cfg: Settings, s: State, a: AttemptId, w: WorkEvent)
    requires WorkEnabled(cfg, s, a, w) && WritesTrail(w)
    ensures SameDesk(s, WorkApply(cfg, s, a, w))
  {
    hide Storable;
    match w
    case IssueToken(token) => assert SameDesk(s, DoIssue(s, a, token)); hide DoIssue, SameDesk;
    case WriteAudit => assert SameDesk(s, DoAudit(s, a)); hide DoAudit, SameDesk;
    case WriteRecord => assert SameDesk(s, DoRecord(s, a)); hide DoRecord, SameDesk;
    case Send(ok) => assert SameDesk(s, DoSend(cfg, s, a, ok)); hide DoSend, SameDesk;
    case _ =>
  }

  lemma WorkLeavesDesk(cfg: Settings, s: State, a: AttemptId, w: WorkEvent)
    requires WorkEnabled(cfg, s, a, w)
    ensures SameDesk(s, WorkApply(cfg, s, a, w))
  {
    hide AfterTenant, DecideVerification, Found, SameDesk;
    if WritesTrail(w) { WriteLeavesDesk(cfg, s, a, w); } else { QuietLeavesDesk(cfg, s, a, w); }
  }

  lemma QuietLeavesDesk(cfg: Settings, s: State, a: AttemptId, w: WorkEvent)
    requires WorkEnabled(cfg, s, a, w) && !WritesTrail(w)
    ensures SameDesk(s, WorkApply(cfg, s, a, w))
  {
    hide AfterTenant, DecideVerification, Found;
  }

  lemma WriteProgress(cfg: Settings, s: State, a: AttemptId, w: WorkEvent)
    requires WorkEnabled(cfg, s, a, w) && WritesTrail(w)
    ensures Progress(s, WorkApply(cfg, s, a, w))
    ensures var t := WorkApply(cfg, s, a, w); t.once == s.once && t.holders == s.holders
  {
    hide Progress, Storable;
    match w
    case IssueToken(token) => IssueProgress(s, a, token);
    case WriteAudit => MoveProgress(s, DoAudit(s, a), a);
    case WriteRecord => RecordProgress(s, a);
    case Send(ok) => MoveProgress(s, DoSend(cfg, s, a, ok), a);
    case _ =>
  }

  lemma IssueProgress(s: State, a: AttemptId, token: Token)
    requires At(s, a) && s.attempts[a].pc.Issuing?
    ensures Progress(s, DoIssue(s, a, token))
    ensures DoIssue(s, a, token).once == s.once && DoIssue(s, a, token).holders == s.holders
  {
    hide Progress;
    MoveProgress(s, DoIssue(s, a, token), a);
  }

  lemma RecordProgress(s: State, a: AttemptId)
    requires At(s, a) && s.attempts[a].pc.Recording?
    ensures Progress(s, DoRecord(s, a))
    ensures DoRecord(s, a).once == s.once && DoRecord(s, a).holders == s.holders
  {
    hide Progress;
    MoveProgress(s, DoRecord(s, a), a);
  }

  lemma StillProgress(s: State, t: State, a: AttemptId)
    requires a in s.attempts && a in t.attempts
    requires t.attempts == s.attempts[a := t.attempts[a]] && t.attempts[a].job == s.attempts[a].job
    requires !s.attempts[a].pc.Done? && (Over(s.attempts[a].pc) ==> Over(t.attempts[a].pc))
    requires t.jobs == s.jobs && t.puts == s.puts && s.discards <= t.discards
    requires t.trails == s.trails && t.holders == s.holders
    ensures Progress(s, t)
  {
  }

  lemma MoveOnProgress(cfg: Settings, s: State, a: AttemptId, w: WorkEvent)
    requires WorkEnabled(cfg, s, a, w) && GoesOn(w)
    ensures Progress(s, WorkApply(cfg, s, a, w))
    ensures var t := WorkApply(cfg, s, a, w); t.once == s.once && t.holders == s.holders
  {
    hide Progress, AfterTenant, FaceConfig, DecideVerification, FrameStore.AfterGet, Found;
    match w
    case GetMedia => StillProgress(s, DoGet(s, a), a);
    case GetSelfie => StillProgress(s, DoGetSelfie(s, a), a);
    case ReadTenant => StillProgress(s, DoReadTenant(cfg, s, a), a);
    case Analyze(result) => StillProgress(s, DoAnalyze(s, a, result), a);
    case VerifyDocument(check) => StillProgress(s, DoVerify(s, a, check), a);
    case _ =>
  }

  lemma QuietWork(cfg: Settings, s: State, a: AttemptId, w: WorkEvent)
    requires WorkEnabled(cfg, s, a, w) && !w.Start? && !WritesTrail(w) && !w.Acquire?
    ensures Progress(s, WorkApply(cfg, s, a, w))
    ensures var t := WorkApply(cfg, s, a, w); t.once == s.once && t.holders == s.holders
  {
    hide Progress;
    if GoesOn(w) {
      MoveOnProgress(cfg, s, a, w);
    } else {
      match w
      case Throw => StillProgress(s, Goto(s, a, Deleting), a);
      case Delete => StillProgress(s, DoDelete(s, a), a);
      case DeleteSelfie => StillProgress(s, DoDeleteSelfie(s, a), a);
      case Discard(written) => StillProgress(s, DoDiscard(s, a, written), a);
      case DeleteFails => StillProgress(s, Goto(s, a, Failed), a);
      case Crash => StillProgress(s, Goto(s, a, Dead), a);
      case _ =>
    }
  }

  lemma WorkProgress(cfg: Settings, s: State, a: AttemptId, w: WorkEvent)
    requires WorkEnabled(cfg, s, a, w)
    ensures Progress(s, WorkApply(cfg, s, a, w))
    ensures var t := WorkApply(cfg, s, a, w);
            !w.Acquire? ==> t.once == s.once && t.holders == s.holders
  {
    hide Progress;
    if w.Start? {
      StartProgress(s, a, w.job);
    } else if WritesTrail(w) {
      WriteProgress(cfg, s, a, w);
    } else if w.Acquire? {
      QuietProgress(s, DoAcquire(cfg, s, a), a);
    } else {
      QuietWork(cfg, s, a, w);
    }
  }

  lemma StartProgress(s: State, a: AttemptId, job: Job)
    requires a !in s.attempts
    ensures Progress(s, DoStart(s, a, job))
  {
  }

  // ----- a once-key is acquired at most once -----

  /** With no assumption on timing: acquires of one key lie a whole time to live apart. */
  predicate Spaced(cfg: Settings, s: State, job: Job) {
    var h := HoldersOf(s, job);
    && (forall i | 0 <= i < |h| - 1 :: h[i].at + cfg.onceTtlMs <= h[i + 1].at)
    && (if h == [] then job !in s.once
        else job in s.once && s.once[job].expiresAt == Some(h[|h| - 1].at + cfg.onceTtlMs))
  }

  lemma StepKeepsSpaced(cfg: Settings, s: State, e: Event, job: Job)
    requires Enabled(cfg, s, e) && Spaced(cfg, s, job)
    ensures Spaced(cfg, Apply(cfg, s, e), job)
  {
    if e.Work? && e.w.Acquire? {
      AcquireKeepsSpaced(cfg, s, e.a, job);
    } else {
      OnceUnmoved(cfg, s, e);
    }
  }

  lemma AcquireKeepsSpaced(cfg: Settings, s: State, a: AttemptId, job: Job)
    requires a in s.attempts && Spaced(cfg, s, job)
    ensures Spaced(cfg, DoAcquire(cfg, s, a), job)
  {
  }

  lemma OnceUnmoved(cfg: Settings, s: State, e: Event)
    requires Enabled(cfg, s, e) && !(e.Work? && e.w.Acquire?)
    ensures Apply(cfg, s, e).once == s.once && Apply(cfg, s, e).holders == s.holders
  {
    match e
    case Http(r, h) => HttpProgress(cfg, s, r, h);
    case Work(a, w) => WorkProgress(cfg, s, a, w);
    case _ =>
  }

  lemma {:induction false} AcquiresSpaced(cfg: Settings, s0: State, run: seq<Event>, job: Job)
    requires Legal(cfg, s0, run) && Spaced(cfg, s0, job)
    ensures Spaced(cfg, Final(cfg, s0, run), job)
    decreases |run|
  {
    hide Enabled, Apply, Spaced;
    if run != [] {
      AcquiresSpaced(cfg, s0, Front(run), job);
      StepKeepsSpaced(cfg, Final(cfg, s0, Front(run)), run[|run| - 1], job);
    }
  }

  /** An attempt that reaches acquire gets the key exactly when nobody had it or the last
      holder's time to live has run out: a slow enough retry does verify again. */
  lemma AcquiredExactlyWhenFree(cfg: Settings, s: State, a: AttemptId)
    requires a in s.attempts && Spaced(cfg, s, s.attempts[a].job)
    ensures var h := HoldersOf(s, s.attempts[a].job);
            HoldersOf(DoAcquire(cfg, s, a), s.attempts[a].job) ==
            if h == [] || s.now >= h[|h| - 1].at + cfg.onceTtlMs then h + [Hold(a, s.now)] else h
  {
  }

  /** In every timely run a once-key is acquired at most once ever, and only its holder is
      inside the part of the try block that verifies, writes and sends. */
  lemma AtMostOnce(cfg: Settings, s0: State, run: seq<Event>, job: Job)
    requires GoodRun(cfg, s0, run)
    ensures var s := Final(cfg, s0, run);
            && |HoldersOf(s, job)| <= 1
            && forall a | a in s.attempts && s.attempts[a].job == job
                  && Holding(s.attempts[a].pc) :: IsHolder(s, a, job)
  {
    InitialInv(cfg, s0);
    RunKeepsInv(cfg, s0, run);
    var s := Final(cfg, s0, run);
    JobHere(cfg, s, job);
    HoldersAtMostOne(cfg, s, job);
    forall a | a in s.attempts && s.attempts[a].job == job && Holding(s.attempts[a].pc) ensures IsHolder(s, a, job) {
      assert AttemptOk(cfg, s, a, s.attempts[a]);
    }
  }

  lemma HoldersAtMostOne(cfg: Settings, s: State, job: Job)
    requires Inv(cfg, s)
    ensures |HoldersOf(s, job)| <= 1
  {
    JobHere(cfg, s, job);
    assert TxOk(cfg, s, job.tx);
    match job.phase
    case FacePhase => assert job == Job(job.tx, FacePhase);
    case DocumentPhase => assert job == Job(job.tx, DocumentPhase);
  }

  // ----- earlier and later states of one run -----

  /** Each ref is put at most once: its put time is fixed, and gone means gone. */
  ghost predicate PutOnce(s: State, t: State) {
    forall ref | ref in s.puts ::
      ref in t.puts && t.puts[ref] == s.puts[ref] && (ref in t.store ==> ref in s.store)
  }

  lemma HttpPutOnce(cfg: Settings, s: State, r: RequestId, h: HttpEvent)
    requires Inv(cfg, s) && HttpEnabled(cfg, s, r, h)
    ensures PutOnce(s, HttpApply(cfg, s, r, h))
  {
  }

  lemma WorkPutOnce(cfg: Settings, s: State, a: AttemptId, w: WorkEvent)
    requires WorkEnabled(cfg, s, a, w)
    ensures PutOnce(s, WorkApply(cfg, s, a, w))
  {
    match w
    case GetMedia => assert DoGet(s, a).puts == s.puts;
    case GetSelfie => assert DoGetSelfie(s, a).puts == s.puts;
    case Delete => assert DoDelete(s, a).puts == s.puts;
    case DeleteSelfie => assert DoDeleteSelfie(s, a).puts == s.puts;
    case _ => StoreUnmoved(cfg, s, a, w);
  }

  lemma StoreUnmoved(cfg: Settings, s: State, a: AttemptId, w: WorkEvent)
    requires WorkEnabled(cfg, s, a, w) && !w.GetMedia? && !w.GetSelfie? && !w.Delete? && !w.DeleteSelfie?
    ensures WorkApply(cfg, s, a, w).puts == s.puts && WorkApply(cfg, s, a, w).store == s.store
  {
    hide AfterTenant, DecideVerification, Storable, Found;
  }

  lemma StepProgress(cfg: Settings, s: State, e: Event)
    requires Enabled(cfg, s, e)
    ensures Progress(s, Apply(cfg, s, e))
  {
    hide Progress, HttpApply, HttpEnabled, WorkApply, WorkEnabled;
    match e {
      case Http(r, h) => HttpProgress(cfg, s, r, h);
      case Work(a, w) => WorkProgress(cfg, s, a, w);
      case _ => QuietGoesOn(cfg, s, e);
    }
  }

  lemma QuietGoesOn(cfg: Settings, s: State, e: Event)
    requires Enabled(cfg, s, e) && !e.Http? && !e.Work?
    ensures Progress(s, Apply(cfg, s, e)) && PutOnce(s, Apply(cfg, s, e))
  {
  }

  lemma StepGoesOn(cfg: Settings, s: State, e: Event)
    requires Inv(cfg, s) && Enabled(cfg, s, e)
    ensures Progress(s, Apply(cfg, s, e)) && PutOnce(s, Apply(cfg, s, e))
  {
    hide Inv, Progress, PutOnce, HttpApply, HttpEnabled, WorkApply, WorkEnabled;
    StepProgress(cfg, s, e);
    match e {
      case Http(r, h) => HttpPutOnce(cfg, s, r, h);
      case Work(a, w) => WorkPutOnce(cfg, s, a, w);
      case _ => QuietGoesOn(cfg, s, e);
    }
  }

  lemma ProgressChains(s: State, t: State, u: State)
    requires Progress(s, t) && Progress(t, u)
    ensures Progress(s, u)
  {
  }

  /** The state after k events is behind the state after all of them. */
  lemma {:induction false} Behind(cfg: Settings, s0: State, run: seq<Event>, k: nat)
    requires Legal(cfg, s0, run) && TimelyRun(cfg, s0, run) && Inv(cfg, s0) && k <= |run|
    ensures Legal(cfg, s0, run[..k])
    ensures Progress(Final(cfg, s0, run[..k]), Final(cfg, s0, run))
    ensures PutOnce(Final(cfg, s0, run[..k]), Final(cfg, s0, run))
    decreases |run|
  {
    hide Inv, Enabled, Apply, Progress, PutOnce, Timely;
    Prefixes(cfg, s0, run, k);
    var s, t := Final(cfg, s0, run[..k]), Final(cfg, s0, run);
    if k == |run| {
      assert run[..k] == run;
      Idle(s);
    } else {
      assert Front(run)[..k] == run[..k];
      Behind(cfg, s0, Front(run), k);
      var m := Final(cfg, s0, Front(run));
      RunKeepsInv(cfg, s0, Front(run));
      StepGoesOn(cfg, m, run[|run| - 1]);
      ProgressChains(s, m, t);
      PutOnceChains(s, m, t);
    }
  }

  /** Trails, holders, discards and finished attempts only grow, in every legal run. */
  lemma {:induction false} RunProgress(cfg: Settings, s0: State, run: seq<Event>, k: nat)
    requires Legal(cfg, s0, run) && k <= |run|
    ensures Legal(cfg, s0, run[..k])
    ensures Progress(Final(cfg, s0, run[..k]), Final(cfg, s0, run))
    decreases |run|
  {
    hide Enabled, Apply, Progress;
    Prefixes(cfg, s0, run, k);
    if k == |run| {
      assert run[..k] == run;
      Idle(Final(cfg, s0, run));
    } else {
      assert Front(run)[..k] == run[..k];
      RunProgress(cfg, s0, Front(run), k);
      var m := Final(cfg, s0, Front(run));
      StepProgress(cfg, m, run[|run| - 1]);
      ProgressChains(Final(cfg, s0, run[..k]), m, Final(cfg, s0, run));
    }
  }

  lemma Idle(s: State)
    ensures Progress(s, s) && PutOnce(s, s)
  {
  }

  lemma PutOnceChains(s: State, t: State, u: State)
    requires PutOnce(s, t) && PutOnce(t, u)
    ensures PutOnce(s, u)
  {
  }

  // ----- erasure is permanent -----

  /** Once an attempt of a job has run its finally block to the end, or once a discard row for
      the job exists, the media of the job is absent now and at every later point of the run. */
  lemma ErasurePermanent(cfg: Settings, s0: State, run: seq<Event>, k: nat, job: Job)
    requires GoodRun(cfg, s0, run) && k <= |run| && GoodRun(cfg, s0, run[..k])
    requires var s := Final(cfg, s0, run[..k]);
             job in s.discards || exists a :: a in s.attempts && s.attempts[a].job == job && s.attempts[a].pc.Done?
    ensures var t := Final(cfg, s0, run);
            MainRef(job) !in t.store && LastRef(job) !in t.store
  {
    InitialInv(cfg, s0);
    Prefixes(cfg, s0, run, k);
    RunKeepsInv(cfg, s0, run[..k]);
    Behind(cfg, s0, run, k);
    var s, t := Final(cfg, s0, run[..k]), Final(cfg, s0, run);
    hide Legal, TimelyRun, Final;
    JobHere(cfg, s, job);
    if job !in s.discards {
      var a :| a in s.attempts && s.attempts[a].job == job && s.attempts[a].pc.Done?;
      Here(cfg, s, a);
    }
  }

  // ----- at most once is not exactly once -----

  /** The holder of the face check has left the try block without writing an audit row. */
  predicate Lost(s: State, tx: TxId) {
    var h := HoldersOf(s, Job(tx, FacePhase));
    && |h| == 1 && h[0].attempt in s.attempts && Over(s.attempts[h[0].attempt].pc)
    && tx in s.trails && s.trails[tx].audits == []
  }

  /** Only a processor of the transaction writes its audit row. */
  lemma AuditsMove(cfg: Settings, s: State, e: Event, tx: TxId)
    requires Enabled(cfg, s, e) && tx in s.trails
    ensures tx in Apply(cfg, s, e).trails
    ensures Apply(cfg, s, e).trails[tx].audits != s.trails[tx].audits ==>
              e.Work? && e.w.WriteAudit? && s.attempts[e.a].job.tx == tx
  {
    hide HttpApply, WorkApply, HttpEnabled, WorkEnabled;
    match e
    case Http(r, h) => HttpAuditsStay(cfg, s, r, h, tx);
    case Work(a, w) => WorkAuditsMove(cfg, s, a, w, tx);
    case _ =>
  }

  lemma HttpAuditsStay(cfg: Settings, s: State, r: RequestId, h: HttpEvent, tx: TxId)
    requires HttpEnabled(cfg, s, r, h) && tx in s.trails
    ensures tx in HttpApply(cfg, s, r, h).trails && HttpApply(cfg, s, r, h).trails[tx].audits == s.trails[tx].audits
  {
  }

  lemma WorkAuditsMove(cfg: Settings, s: State, a: AttemptId, w: WorkEvent, tx: TxId)
    requires WorkEnabled(cfg, s, a, w) && tx in s.trails
    ensures var t := WorkApply(cfg, s, a, w);
            tx in t.trails && (t.trails[tx].audits != s.trails[tx].audits
                ==> w.WriteAudit? && s.attempts[a].job.tx == tx)
  {
  }

  lemma LostStaysLost(cfg: Settings, s: State, e: Event, tx: TxId)
    requires Inv(cfg, s) && Enabled(cfg, s, e) && Inv(cfg, Apply(cfg, s, e)) && Lost(s, tx)
    ensures Lost(Apply(cfg, s, e), tx)
  {
    var t := Apply(cfg, s, e);
    AuditsMove(cfg, s, e, tx);
    if e.Work? && e.w.WriteAudit? && s.attempts[e.a].job.tx == tx {
      LostWritesNothing(cfg, s, e.a, tx);
    }
    StepGoesOn(cfg, s, e);
    HoldersAtMostOne(cfg, t, Job(tx, FacePhase));
    hide Inv, Enabled, Apply, PutOnce;
    StillLost(s, t, tx);
  }

  lemma StillLost(s: State, t: State, tx: TxId)
    requires Lost(s, tx) && Progress(s, t) && tx in t.trails && t.trails[tx].audits == s.trails[tx].audits
    requires |HoldersOf(t, Job(tx, FacePhase))| <= 1
    ensures Lost(t, tx)
  {
    assert HoldersOf(s, Job(tx, FacePhase)) <= HoldersOf(t, Job(tx, FacePhase));
  }

  lemma LostWritesNothing(cfg: Settings, s: State, a: AttemptId, tx: TxId)
    requires Inv(cfg, s) && Lost(s, tx) && a in s.attempts && s.attempts[a].job.tx == tx
    ensures !s.attempts[a].pc.Auditing?
  {
  }

  /** The once-key makes processing at-most-once, not exactly-once: once the attempt that took
      the key is over without an audit row (it crashed, or something threw), no retry will ever
      write one. */
  lemma {:induction false} LostForever(cfg: Settings, s0: State, run: seq<Event>, k: nat, tx: TxId)
    requires GoodRun(cfg, s0, run) && k <= |run| && GoodRun(cfg, s0, run[..k])
    requires Lost(Final(cfg, s0, run[..k]), tx)
    ensures Lost(Final(cfg, s0, run), tx) && tx !in Final(cfg, s0, run).audit
    decreases |run|
  {
    InitialInv(cfg, s0);
    RunKeepsInv(cfg, s0, run);
    var t := Final(cfg, s0, run);
    hide Inv, Enabled, Apply, Lost;
    if k == |run| {
      assert run[..k] == run;
    } else {
      assert Front(run)[..k] == run[..k];
      RunKeepsInv(cfg, s0, Front(run));
      LostForever(cfg, s0, Front(run), k, tx);
      LostStaysLost(cfg, Final(cfg, s0, Front(run)), run[|run| - 1], tx);
    }
    LostHasNoRow(cfg, t, tx);
  }

  lemma HolderAudits(cfg: Settings, s: State, a: AttemptId)
    requires Inv(cfg, s) && At(s, a) && s.attempts[a].job.phase.FacePhase? && Holding(s.attempts[a].pc)
    ensures s.attempts[a].job == Job(s.attempts[a].job.tx, FacePhase) && IsHolder(s, a, s.attempts[a].job)
    ensures s.trails[s.attempts[a].job.tx].audits == [] <==>
              s.attempts[a].pc.Scoping? || s.attempts[a].pc.Analyzing? || s.attempts[a].pc.Issuing?
              || s.attempts[a].pc.Auditing?
  {
    Here(cfg, s, a);
    hide Inv, RefOk, JobOk;
  }

  /** When the attempt that holds the once-key leaves the try block early, by a throw (which leads
      to Deleting) or by a crash, the transaction is lost exactly when the audit row was not
      written yet. */
  lemma LeavingLoses(cfg: Settings, s: State, a: AttemptId, pc: Pc)
    requires Inv(cfg, s) && At(s, a) && s.attempts[a].job.phase.FacePhase? && Holding(s.attempts[a].pc)
    requires pc.Deleting? || pc.Dead?
    ensures Lost(Goto(s, a, pc), s.attempts[a].job.tx) <==>
              s.attempts[a].pc.Scoping? || s.attempts[a].pc.Analyzing? || s.attempts[a].pc.Issuing?
              || s.attempts[a].pc.Auditing?
  {
    HolderAudits(cfg, s, a);
    hide Inv;
  }

  lemma LostHasNoRow(cfg: Settings, s: State, tx: TxId)
    requires Inv(cfg, s) && Lost(s, tx)
    ensures tx !in s.audit
  {
    assert TxOk(cfg, s, tx);
  }
}
