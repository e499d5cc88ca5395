/** What can still become of a queued job whose audit row was not written: exactly when some
    continuation of the run writes it, and when none ever will. */
module PipelineFate {
  import opened Wrappers
  import opened Decision
  import opened Pipeline
  import opened PipelineInvariant
  import opened PipelineTheorems
  import opened PipelineAnyRun
  import opened PipelineSources
  import opened PipelineTruth
  import opened PipelineApproval
  import opened PipelineMoves
  import opened PipelineWitness

  /** An audit row of that phase was written for the transaction. */
  predicate Decided(s: State, job: Job) {
    job.tx in s.trails && exists v :: v in s.trails[job.tx].audits && PhaseOf(v.basis) == job.phase
  }

  /** Past the once-key and short of the audit row. */
  predicate Deciders(pc: Pc) {
    pc.Scoping? || pc.Analyzing? || pc.Verifying? || pc.Deciding? || pc.Issuing? || pc.Auditing?
  }

  /** Some attempt can still come to read all the images of the job. */
  ghost predicate Readable(s: State, job: Job) {
    || ImagesFound(s, job)
    || (job.phase.DocumentPhase? && Found(s, SelfieRef(job.tx))
        && exists a :: a in s.attempts && s.attempts[a] == Attempt(job, GettingSelfie(true)))
  }

  /** An attempt has read them, in time if that is asked for. */
  ghost predicate HasRead(cfg: Settings, s: State, job: Job, timely: bool) {
    exists a :: a in s.attempts && s.attempts[a].job == job && s.attempts[a].pc.Acquiring?
                && (timely ==> s.now - s.attempts[a].pc.gotAt <= Slack(cfg))
  }

  ghost predicate UnderWay(s: State, job: Job) {
    exists a :: a in s.attempts && s.attempts[a].job == job && Deciders(s.attempts[a].pc)
  }

  /** An attempt has the key and is short of its audit row; or the key can still be taken, by an
      attempt that has read the images or by one that can read them. In a timely run a key is taken
      once, and an acquire right after the get is in time only if the bound is not negative. */
  ghost predicate Hope(cfg: Settings, s: State, job: Job, timely: bool) {
    || UnderWay(s, job)
    || ((timely ==> HoldersOf(s, job) == [])
        && (HasRead(cfg, s, job, timely) || (Readable(s, job) && (timely ==> Slack(cfg) >= 0))))
  }

  // ----- while there is hope -----

  ghost predicate Decides(cfg: Settings, s0: State, run: seq<Event>, longer: seq<Event>, timely: bool, job: Job) {
    && run <= longer && Legal(cfg, s0, longer) && (timely ==> TimelyRun(cfg, s0, longer))
    && Decided(Final(cfg, s0, longer), job)
  }

  /** Some legal, or timely, continuation of the run writes the row. */
  ghost predicate CanBeDecided(cfg: Settings, s0: State, run: seq<Event>, timely: bool, job: Job) {
    exists longer :: Decides(cfg, s0, run, longer, timely, job)
  }

  lemma WritesRow(cfg: Settings, s0: State, run: seq<Event>, s: State, timely: bool, a: AttemptId, job: Job, v: Verdict,
      token: Option<Token>)
    returns (longer: seq<Event>)
    requires Goes(cfg, s0, run, s, timely) && Stands(s, a, job, Auditing(v, token)) && PhaseOf(v.basis) == job.phase
    ensures Decides(cfg, s0, run, longer, timely, job)
  {
    hide Stands;
    var t;
    longer, t := Audits(cfg, s0, run, s, timely, a, job, v, token);
  }

  lemma FaceDecides(cfg: Settings, s0: State, run: seq<Event>, s: State, timely: bool, a: AttemptId, job: Job, pc: Pc)
    returns (longer: seq<Event>)
    requires Goes(cfg, s0, run, s, timely) && Stands(s, a, job, pc) && job.phase.FacePhase?
    requires pc.Scoping? || pc.Analyzing? || (pc.Issuing? && pc.v.basis.ByFace?)
    ensures Decides(cfg, s0, run, longer, timely, job)
    decreases if pc.Scoping? then 2 else if pc.Analyzing? then 1 else 0
  {
    hide Goes, Stands, FaceConfig, DecideVerification, Decided, Decides;
    var more, t := run, s;
    if pc.Scoping? {
      more, t := ReadsTenant(cfg, s0, run, s, timely, a, job, pc);
      longer := FaceDecides(cfg, s0, more, t, timely, a, job, AfterTenant(cfg, pc, 18));
    } else if pc.Analyzing? {
      var r := AgeResult(0.0, 0.0);
      more, t := Answers(cfg, s0, run, s, timely, a, job, pc.cfg, r);
      var v := FaceOutcome(r, pc.cfg);
      if v.status == DocumentoRequerido {
        longer := FaceDecides(cfg, s0, more, t, timely, a, job, Issuing(v));
      } else {
        longer := WritesRow(cfg, s0, more, t, timely, a, job, v, None);
      }
    } else {
      var k;
      more, t, k := Issues(cfg, s0, run, s, timely, a, job, pc.v);
      longer := WritesRow(cfg, s0, more, t, timely, a, job, pc.v, Some(k));
    }
    Onwards(cfg, s0, run, more, longer, timely, job);
  }

  lemma Onwards(cfg: Settings, s0: State, run: seq<Event>, more: seq<Event>, longer: seq<Event>, timely: bool, job: Job)
    requires run <= more && Decides(cfg, s0, more, longer, timely, job)
    ensures Decides(cfg, s0, run, longer, timely, job)
  {
  }

  lemma DocumentDecides(cfg: Settings, s0: State, run: seq<Event>, s: State, timely: bool, a: AttemptId, job: Job,
      pc: Pc)
    returns (longer: seq<Event>)
    requires Goes(cfg, s0, run, s, timely) && Stands(s, a, job, pc) && job.phase.DocumentPhase?
    requires pc.Verifying? || pc.Deciding?
    ensures Decides(cfg, s0, run, longer, timely, job)
    decreases if pc.Verifying? then 1 else 0
  {
    hide Goes, Stands, DecideDocument, AgeFromDocument, DocumentCutoff, Decided, Decides, Enabled, Apply;
    var more, t;
    if pc.Verifying? {
      var check := DocumentCheck(NoBirthDate, 0.0, false);
      VerifyStands(cfg, s, a, job, check);
      more, t := GoOn(cfg, s0, run, s, timely, Work(a, VerifyDocument(check)));
      longer := DocumentDecides(cfg, s0, more, t, timely, a, job, Deciding(check, s.now));
    } else {
      more, t := ReadsTenant(cfg, s0, run, s, timely, a, job, pc);
      var next := AfterTenant(cfg, pc, 18);
      longer := WritesRow(cfg, s0, more, t, timely, a, job, next.v, next.token);
    }
    Onwards(cfg, s0, run, more, longer, timely, job);
  }

  /** Whoever has read the images takes the key and decides. */
  lemma KeyDecides(cfg: Settings, s0: State, run: seq<Event>, s: State, timely: bool, a: AttemptId, job: Job, at: int)
    returns (longer: seq<Event>)
    requires Goes(cfg, s0, run, s, timely) && Stands(s, a, job, Acquiring(at))
    requires timely ==> HoldersOf(s, job) == [] && s.now - at <= Slack(cfg)
    ensures Decides(cfg, s0, run, longer, timely, job)
  {
    hide Goes, Stands, Decides, HoldersOf, Slack;
    var more, t := Acquires(cfg, s0, run, s, timely, a, job, at);
    if job.phase.FacePhase? {
      longer := FaceDecides(cfg, s0, more, t, timely, a, job, Scoping);
    } else {
      longer := DocumentDecides(cfg, s0, more, t, timely, a, job, Verifying);
    }
    Onwards(cfg, s0, run, more, longer, timely, job);
  }

  lemma ReadingDecides(cfg: Settings, s0: State, run: seq<Event>, s: State, timely: bool, job: Job)
    returns (longer: seq<Event>)
    requires Goes(cfg, s0, run, s, timely) && job in s.jobs && job.tx in s.trails && Readable(s, job)
    requires timely ==> HoldersOf(s, job) == [] && Slack(cfg) >= 0
    ensures Decides(cfg, s0, run, longer, timely, job)
  {
    hide Goes, Decides, Slack, ImagesFound, Found;
    var more, t, a;
    if ImagesFound(s, job) {
      more, t, a := ReadsImages(cfg, s0, run, s, timely, job);
    } else {
      a :| a in s.attempts && s.attempts[a] == Attempt(job, GettingSelfie(true));
      more, t := ReadsSelfie(cfg, s0, run, s, timely, a, job);
    }
    longer := KeyDecides(cfg, s0, more, t, timely, a, job, t.now);
    Onwards(cfg, s0, run, more, longer, timely, job);
  }

  lemma DecidersDecide(cfg: Settings, s0: State, run: seq<Event>, s: State, timely: bool, a: AttemptId, job: Job)
    returns (longer: seq<Event>)
    requires Goes(cfg, s0, run, s, timely) && At(s, a) && s.attempts[a].job == job && Deciders(s.attempts[a].pc)
    requires PhaseFits(s.attempts[a]) && CarriesOwn(s.attempts[a])
    ensures Decides(cfg, s0, run, longer, timely, job)
  {
    hide Goes, Decides;
    var pc := s.attempts[a].pc;
    if pc.Auditing? {
      longer := WritesRow(cfg, s0, run, s, timely, a, job, pc.v, pc.token);
    } else if job.phase.FacePhase? {
      longer := FaceDecides(cfg, s0, run, s, timely, a, job, pc);
    } else {
      longer := DocumentDecides(cfg, s0, run, s, timely, a, job, pc);
    }
  }

  /** What every reachable state offers here. */
  ghost predicate Settled(s: State) {
    Rooted(s) && Escalated(s)
  }

  lemma RunSettled(cfg: Settings, s0: State, run: seq<Event>)
    requires FromStart(s0) && Legal(cfg, s0, run)
    ensures Settled(Final(cfg, s0, run))
  {
    RunRooted(cfg, s0, run);
    RunEscalated(cfg, s0, run);
  }

  lemma Placed(s: State, a: AttemptId)
    requires Settled(s) && a in s.attempts
    ensures At(s, a) && PhaseFits(s.attempts[a]) && CarriesOwn(s.attempts[a])
  {
    assert AttemptRooted(s, s.attempts[a]);
    assert JobRooted(s, s.attempts[a].job);
  }

  lemma HopeDecides(cfg: Settings, s0: State, run: seq<Event>, s: State, timely: bool, job: Job)
    requires Goes(cfg, s0, run, s, timely) && Settled(s) && job in s.jobs && Hope(cfg, s, job, timely)
    ensures CanBeDecided(cfg, s0, run, timely, job)
  {
    hide Goes, Settled, Decides, Readable, Slack, Deciders, PhaseFits, CarriesOwn;
    var longer;
    if UnderWay(s, job) {
      var a :| a in s.attempts && s.attempts[a].job == job && Deciders(s.attempts[a].pc);
      Placed(s, a);
      longer := DecidersDecide(cfg, s0, run, s, timely, a, job);
    } else if HasRead(cfg, s, job, timely) {
      var a :| a in s.attempts && s.attempts[a].job == job && s.attempts[a].pc.Acquiring?
               && (timely ==> s.now - s.attempts[a].pc.gotAt <= Slack(cfg));
      Placed(s, a);
      longer := KeyDecides(cfg, s0, run, s, timely, a, job, s.attempts[a].pc.gotAt);
    } else {
      QueuedIsOpened(s, job);
      longer := ReadingDecides(cfg, s0, run, s, timely, job);
    }
  }

  lemma QueuedIsOpened(s: State, job: Job)
    requires Settled(s) && job in s.jobs
    ensures job.tx in s.trails
  {
    assert JobRooted(s, job);
  }

  // ----- once hope is gone -----

  /** Queued, undecided, and without hope. */
  ghost predicate Doomed(cfg: Settings, s: State, job: Job, timely: bool) {
    job in s.jobs && !Decided(s, job) && !Hope(cfg, s, job, timely)
  }

  /** Nothing that could be read comes back, and nobody new has the images. */
  ghost predicate NoNearer(s: State, t: State, job: Job) {
    && s.now <= t.now && s.jobs.Keys <= t.jobs.Keys && HoldersOf(s, job) <= HoldersOf(t, job)
    && (Found(t, MainRef(job)) ==> Found(s, MainRef(job))) && (Found(t, LastRef(job)) ==> Found(s, LastRef(job)))
    && job.tx in s.trails && job.tx in t.trails
  }

  lemma QuietDooms(cfg: Settings, s: State, t: State, job: Job, timely: bool)
    requires Doomed(cfg, s, job, timely) && NoNearer(s, t, job) && t.attempts == s.attempts
    requires t.trails[job.tx].audits == s.trails[job.tx].audits
    ensures Doomed(cfg, t, job, timely)
  {
    hide Found, Deciders, Slack;
  }

  // ----- a request handler puts nothing that the job could read -----

  lemma HttpNoNearer(cfg: Settings, s: State, r: RequestId, h: HttpEvent, job: Job, timely: bool)
    requires Rooted(s) && HttpEnabled(cfg, s, r, h) && job in s.jobs && (timely ==> Inv(cfg, s))
    requires timely || job.phase.FacePhase?
    ensures var t := HttpApply(cfg, s, r, h);
            NoNearer(s, t, job) && t.attempts == s.attempts && t.trails[job.tx].audits == s.trails[job.tx].audits
  {
    assert JobRooted(s, job);
    HttpShape(cfg, s, r, h);
    HttpAuditsStay(cfg, s, r, h, job.tx);
    PutsElsewhere(cfg, s, r, h, job, timely);
    HttpFindsNothing(cfg, s, r, h, job);
    hide Rooted, Inv, HttpApply, HttpEnabled, Found;
  }

  /** That step puts an image under the ref. */
  predicate Puts(s: State, r: RequestId, h: HttpEvent, ref: Ref) {
    r in s.requests &&
    match s.requests[r]
    case Admitted(tx, _) => h.PutFrame? && ref == FrameRef(tx)
    case DocumentAdmitted(tx, _) => h.PutDocument? && ref == DocumentRef(tx)
    case DocumentStored(tx, _) => h.PutSelfie? && ref == SelfieRef(tx)
    case _ => false
  }

  lemma PutsElsewhere(cfg: Settings, s: State, r: RequestId, h: HttpEvent, job: Job, timely: bool)
    requires Rooted(s) && HttpEnabled(cfg, s, r, h) && job in s.jobs && (timely ==> Inv(cfg, s))
    requires timely || job.phase.FacePhase?
    ensures !Puts(s, r, h, MainRef(job)) && !Puts(s, r, h, LastRef(job))
  {
    if r in s.requests {
      assert RequestRooted(s, r, s.requests[r]);
      assert timely ==> RequestOk(s, r, s.requests[r]);
    }
  }

  lemma HttpFindsNothing(cfg: Settings, s: State, r: RequestId, h: HttpEvent, job: Job)
    requires HttpEnabled(cfg, s, r, h) && !Puts(s, r, h, MainRef(job)) && !Puts(s, r, h, LastRef(job))
    ensures var t := HttpApply(cfg, s, r, h);
            && t.now == s.now
            && (Found(t, MainRef(job)) ==> Found(s, MainRef(job)))
                  && (Found(t, LastRef(job)) ==> Found(s, LastRef(job)))
  {
  }

  // ----- a job processor -----

  /** What a step of attempt a brings: it comes to read or to decide only from where hope was. */
  ghost predicate ComesFrom(s: State, t: State, a: AttemptId) {
    && a in t.attempts && t.attempts == s.attempts[a := t.attempts[a]] && t.now == s.now
    && var y := t.attempts[a];
    && (Deciders(y.pc) ==>
          && a in s.attempts && s.attempts[a].job == y.job
          && (Deciders(s.attempts[a].pc)
              || (s.attempts[a].pc.Acquiring? && HoldersOf(t, y.job) == HoldersOf(s, y.job) + [Hold(a, s.now)])))
    && (y.pc.Acquiring? ==>
          && y.pc.gotAt == s.now && a in s.attempts && s.attempts[a].job == y.job
          && (if y.job.phase.FacePhase? then Found(s, MainRef(y.job))
              else s.attempts[a].pc == GettingSelfie(true) && Found(s, SelfieRef(y.job.tx))))
    && (y.pc == GettingSelfie(true) ==> y.job.phase.DocumentPhase? && Found(s, MainRef(y.job)))
  }

  ghost predicate FindsLess(s: State, t: State) {
    forall ref | Found(t, ref) :: Found(s, ref)
  }

  lemma WriteComes(cfg: Settings, s: State, a: AttemptId, w: WorkEvent)
    requires WorkEnabled(cfg, s, a, w) && WritesTrail(w)
    ensures var t := WorkApply(cfg, s, a, w); ComesFrom(s, t, a) && FindsLess(s, t)
  {
    hide Storable, ComesFrom, FindsLess, Found;
    match w
    case IssueToken(token) => StillComes(s, DoIssue(s, a, token), a);
    case WriteAudit => StillComes(s, DoAudit(s, a), a);
    case WriteRecord => StillComes(s, DoRecord(s, a), a);
    case Send(ok) => StillComes(s, DoSend(cfg, s, a, ok), a);
    case _ =>
  }

  /** The attempt goes on where it was, or out. */
  lemma StillComes(s: State, t: State, a: AttemptId)
    requires a in s.attempts && a in t.attempts && t.attempts == s.attempts[a := t.attempts[a]]
    requires t.attempts[a].job == s.attempts[a].job && t.now == s.now
    requires forall ref | ref in t.store :: ref in s.store && t.store[ref] == s.store[ref]
    requires Deciders(t.attempts[a].pc) ==> Deciders(s.attempts[a].pc)
    requires !t.attempts[a].pc.Acquiring? && !t.attempts[a].pc.GettingSelfie?
    ensures ComesFrom(s, t, a) && FindsLess(s, t)
  {
  }

  lemma QuietComes(cfg: Settings, s: State, a: AttemptId, w: WorkEvent)
    requires WorkEnabled(cfg, s, a, w) && !WritesTrail(w) && (a in s.attempts ==> PhaseFits(s.attempts[a]))
    ensures var t := WorkApply(cfg, s, a, w); ComesFrom(s, t, a) && FindsLess(s, t)
  {
    hide AfterTenant, ComesFrom, FindsLess, Deciders, PhaseFits;
    if w.Start? || w.GetMedia? || w.GetSelfie? || w.Acquire? {
      ImageComes(cfg, s, a, w);
    } else if w.ReadTenant? || w.Analyze? || w.VerifyDocument? {
      DeciderComes(cfg, s, a, w);
    } else {
      EndComes(cfg, s, a, w);
    }
  }

  lemma ImageComes(cfg: Settings, s: State, a: AttemptId, w: WorkEvent)
    requires WorkEnabled(cfg, s, a, w) && (w.Start? || w.GetMedia? || w.GetSelfie? || w.Acquire?)
    requires a in s.attempts ==> PhaseFits(s.attempts[a])
    ensures var t := WorkApply(cfg, s, a, w); ComesFrom(s, t, a) && FindsLess(s, t)
  {
    match w
    case Start(job) => assert WorkApply(cfg, s, a, w) == DoStart(s, a, job);
    case GetMedia => assert WorkApply(cfg, s, a, w) == DoGet(s, a);
    case GetSelfie => assert WorkApply(cfg, s, a, w) == DoGetSelfie(s, a);
    case Acquire => assert WorkApply(cfg, s, a, w) == DoAcquire(cfg, s, a);
    case _ =>
  }

  lemma DeciderComes(cfg: Settings, s: State, a: AttemptId, w: WorkEvent)
    requires WorkEnabled(cfg, s, a, w) && (w.ReadTenant? || w.Analyze? || w.VerifyDocument?)
    ensures var t := WorkApply(cfg, s, a, w); ComesFrom(s, t, a) && FindsLess(s, t)
  {
    hide ComesFrom, FindsLess;
    match w
    case ReadTenant => StillComes(s, DoReadTenant(cfg, s, a), a);
    case Analyze(result) => StillComes(s, DoAnalyze(s, a, result), a);
    case VerifyDocument(check) => StillComes(s, DoVerify(s, a, check), a);
    case _ =>
  }

  lemma EndComes(cfg: Settings, s: State, a: AttemptId, w: WorkEvent)
    requires WorkEnabled(cfg, s, a, w) && !w.Start?
    requires w.Throw? || w.Delete? || w.DeleteSelfie? || w.Discard? || w.DeleteFails? || w.Crash?
    ensures var t := WorkApply(cfg, s, a, w); ComesFrom(s, t, a) && FindsLess(s, t)
  {
    hide ComesFrom, FindsLess, Found;
    match w
    case Throw => StillComes(s, Goto(s, a, Deleting), a);
    case Delete => StillComes(s, DoDelete(s, a), a);
    case DeleteSelfie => StillComes(s, DoDeleteSelfie(s, a), a);
    case Discard(written) => StillComes(s, DoDiscard(s, a, written), a);
    case DeleteFails => StillComes(s, Goto(s, a, Failed), a);
    case Crash => StillComes(s, Goto(s, a, Dead), a);
    case _ =>
  }

  /** Only who is under way writes the row. */
  lemma RowComes(cfg: Settings, s: State, a: AttemptId, w: WorkEvent, job: Job)
    requires WorkEnabled(cfg, s, a, w) && job.tx in s.trails && Decided(WorkApply(cfg, s, a, w), job)
    requires a in s.attempts ==> CarriesOwn(s.attempts[a])
    ensures Decided(s, job) || UnderWay(s, job)
  {
    var t := WorkApply(cfg, s, a, w);
    hide WorkApply, WorkEnabled;
    var v :| v in t.trails[job.tx].audits && PhaseOf(v.basis) == job.phase;
    var k :| 0 <= k < |t.trails[job.tx].audits| && t.trails[job.tx].audits[k] == v;
    AuditCarries(cfg, s, a, w, job.tx, k);
  }

  lemma WorkDooms(cfg: Settings, s: State, a: AttemptId, w: WorkEvent, job: Job, timely: bool)
    requires Doomed(cfg, s, job, timely) && Settled(s) && WorkEnabled(cfg, s, a, w)
    requires timely ==> Timely(cfg, s, Work(a, w)) && Inv(cfg, WorkApply(cfg, s, a, w))
    ensures Doomed(cfg, WorkApply(cfg, s, a, w), job, timely)
  {
    hide Settled, WorkApply, WorkEnabled, Inv, Timely, PhaseFits, CarriesOwn, Hope, Decided, ComesFrom, FindsLess;
    var t := WorkApply(cfg, s, a, w);
    QueuedIsOpened(s, job);
    if a in s.attempts { Placed(s, a); }
    if Decided(t, job) { RowBrings(cfg, s, a, w, job, timely); }
    if WritesTrail(w) { WriteComes(cfg, s, a, w); } else { QuietComes(cfg, s, a, w); }
    if timely { HoldersAtMostOne(cfg, t, job); }
    KeyMoves(cfg, s, a, w, job);
    InTimeThen(cfg, s, a, w, timely);
    WorkedDooms(cfg, s, t, a, job, timely);
  }

  lemma RowBrings(cfg: Settings, s: State, a: AttemptId, w: WorkEvent, job: Job, timely: bool)
    requires WorkEnabled(cfg, s, a, w) && job.tx in s.trails && Decided(WorkApply(cfg, s, a, w), job)
    requires a in s.attempts ==> CarriesOwn(s.attempts[a])
    ensures Decided(s, job) || Hope(cfg, s, job, timely)
  {
    hide WorkApply, WorkEnabled, Decided;
    RowComes(cfg, s, a, w, job);
  }

  lemma InTimeThen(cfg: Settings, s: State, a: AttemptId, w: WorkEvent, timely: bool)
    requires timely ==> Timely(cfg, s, Work(a, w))
    ensures timely && w.Acquire? && a in s.attempts && s.attempts[a].pc.Acquiring? ==>
              s.now - s.attempts[a].pc.gotAt <= Slack(cfg)
  {
  }

  /** Jobs stay, and only an acquire adds a holder. */
  lemma KeyMoves(cfg: Settings, s: State, a: AttemptId, w: WorkEvent, job: Job)
    requires WorkEnabled(cfg, s, a, w)
    ensures var t := WorkApply(cfg, s, a, w);
            t.jobs == s.jobs && HoldersOf(s, job) <= HoldersOf(t, job) && (!w.Acquire? ==> t.holders == s.holders)
  {
    StepWorksOn(cfg, s, a, w);
    WorkProgress(cfg, s, a, w);
    if !w.Acquire? { OnceUnmoved(cfg, s, Work(a, w)); }
    hide WorkApply, WorkEnabled;
  }

  lemma WorkedDooms(cfg: Settings, s: State, t: State, a: AttemptId, job: Job, timely: bool)
    requires Doomed(cfg, s, job, timely) && ComesFrom(s, t, a) && FindsLess(s, t)
    requires t.jobs == s.jobs && !Decided(t, job) && HoldersOf(s, job) <= HoldersOf(t, job)
    requires timely ==> |HoldersOf(t, job)| <= 1
    requires timely && a in s.attempts && s.attempts[a].pc.Acquiring? && t.holders != s.holders ==>
               s.now - s.attempts[a].pc.gotAt <= Slack(cfg)
    ensures Doomed(cfg, t, job, timely)
  {
    hide Decided, Found, Slack;
  }

  // ----- whole runs -----

  lemma StepDooms(cfg: Settings, s: State, e: Event, job: Job, timely: bool)
    requires Doomed(cfg, s, job, timely) && Settled(s) && Enabled(cfg, s, e) && (timely || job.phase.FacePhase?)
    requires timely ==> Inv(cfg, s) && Timely(cfg, s, e) && Inv(cfg, Apply(cfg, s, e))
    ensures Doomed(cfg, Apply(cfg, s, e), job, timely)
  {
    assert Rooted(s);
    hide Settled, Inv, Timely, Rooted, HttpApply, HttpEnabled, WorkApply, WorkEnabled, NoNearer;
    match e
    case Http(r, h) =>
      HttpNoNearer(cfg, s, r, h, job, timely);
      QuietDooms(cfg, s, Apply(cfg, s, e), job, timely);
    case Work(a, w) => WorkDooms(cfg, s, a, w, job, timely);
    case _ =>
      QueuedIsOpened(s, job);
      QuietNoNearer(cfg, s, e, job);
      QuietDooms(cfg, s, Apply(cfg, s, e), job, timely);
  }

  lemma QuietNoNearer(cfg: Settings, s: State, e: Event, job: Job)
    requires Enabled(cfg, s, e) && !e.Http? && !e.Work? && job.tx in s.trails
    ensures var t := Apply(cfg, s, e);
            NoNearer(s, t, job) && t.attempts == s.attempts && t.trails[job.tx].audits == s.trails[job.tx].audits
  {
  }

  lemma {:induction false} StaysDoomed(cfg: Settings, s0: State, run: seq<Event>, k: nat, job: Job, timely: bool)
    requires FromStart(s0) && Legal(cfg, s0, run) && (timely ==> TimelyRun(cfg, s0, run))
    requires k <= |run| && Legal(cfg, s0, run[..k]) && (timely || job.phase.FacePhase?)
    requires Doomed(cfg, Final(cfg, s0, run[..k]), job, timely)
    ensures Doomed(cfg, Final(cfg, s0, run), job, timely)
    decreases |run|
  {
    hide Doomed, Enabled, Apply, Timely, Settled, Inv;
    if k == |run| {
      assert run[..k] == run;
    } else {
      assert Front(run)[..k] == run[..k];
      StaysDoomed(cfg, s0, Front(run), k, job, timely);
      RunSettled(cfg, s0, Front(run));
      if timely {
        RunInv(cfg, s0, Front(run));
        RunInv(cfg, s0, run);
      }
      StepDooms(cfg, Final(cfg, s0, Front(run)), run[|run| - 1], job, timely);
    }
  }

  /** The fate of a queued job whose audit row was not written. Some timely continuation of a timely
      run writes the row exactly while there is hope; and for the face check the same holds of all
      legal runs and continuations, however slow. */
  lemma FateExact(cfg: Settings, s0: State, run: seq<Event>, job: Job, timely: bool)
    requires FromStart(s0) && Legal(cfg, s0, run) && (timely ==> TimelyRun(cfg, s0, run))
    requires timely || job.phase.FacePhase?
    requires job in Final(cfg, s0, run).jobs && !Decided(Final(cfg, s0, run), job)
    ensures CanBeDecided(cfg, s0, run, timely, job) <==> Hope(cfg, Final(cfg, s0, run), job, timely)
  {
    hide Hope, Decided;
    var s := Final(cfg, s0, run);
    if Hope(cfg, s, job, timely) {
      RunSettled(cfg, s0, run);
      hide Settled;
      HopeDecides(cfg, s0, run, s, timely, job);
    } else if CanBeDecided(cfg, s0, run, timely, job) {
      var longer :| Decides(cfg, s0, run, longer, timely, job);
      assert longer[..|run|] == run;
      StaysDoomed(cfg, s0, longer, |run|, job, timely);
    }
  }

  // ----- what that means for the row -----

  /** The face check of a transaction is decided exactly when there is an audit row. */
  lemma DecidedIsRow(s: State, tx: TxId)
    requires Truthful(s) && Escalated(s)
    ensures Decided(s, Job(tx, FacePhase)) <==> tx in s.audit
  {
    assert RowsTrue(s, tx);
    if tx in s.audit {
      var t := s.trails[tx];
      var v := t.audits[|t.audits| - 1];
      assert v in t.audits && TrailTrue(tx, t);
      if v.basis.ByDocument? {
        assert WasGrey(t);
        var g :| g in t.records && g.status == DocumentoRequerido;
        GreyMeans(g);
        assert g in t.audits && PhaseOf(g.basis) == FacePhase;
      } else {
        assert PhaseOf(v.basis) == FacePhase;
      }
    }
  }

  /** Without hope there is no row, now or at any later point. */
  lemma NeverAnyRow(cfg: Settings, s0: State, run: seq<Event>, k: nat, tx: TxId, timely: bool)
    requires FromStart(s0) && Legal(cfg, s0, run) && (timely ==> TimelyRun(cfg, s0, run))
    requires k <= |run| && Legal(cfg, s0, run[..k]) && Doomed(cfg, Final(cfg, s0, run[..k]), Job(tx, FacePhase), timely)
    ensures tx !in Final(cfg, s0, run).audit
  {
    StaysDoomed(cfg, s0, run, k, Job(tx, FacePhase), timely);
    RunTruth(cfg, s0, run);
    RunEscalated(cfg, s0, run);
    DecidedIsRow(Final(cfg, s0, run), tx);
  }

  /** A queued document check without hope leaves the row at documento_requerido for ever. */
  lemma StuckAtRequired(cfg: Settings, s0: State, run: seq<Event>, k: nat, tx: TxId)
    requires GoodRun(cfg, s0, run) && k <= |run| && Legal(cfg, s0, run[..k])
    requires Doomed(cfg, Final(cfg, s0, run[..k]), Job(tx, DocumentPhase), true)
    ensures var s := Final(cfg, s0, run); tx in s.audit && s.audit[tx].verdict.status == DocumentoRequerido
  {
    StaysDoomed(cfg, s0, run, k, Job(tx, DocumentPhase), true);
    RunInv(cfg, s0, run);
    UndecidedIsGrey(cfg, Final(cfg, s0, run), tx);
  }

  lemma UndecidedIsGrey(cfg: Settings, s: State, tx: TxId)
    requires Inv(cfg, s) && Job(tx, DocumentPhase) in s.jobs && !Decided(s, Job(tx, DocumentPhase))
    ensures tx in s.audit && s.audit[tx].verdict.status == DocumentoRequerido
  {
    assert TxOk(cfg, s, tx);
    hide Inv, RefOk;
    var t := s.trails[tx];
    assert forall i | 0 <= i < |t.audits| :: t.audits[i] in t.audits && PhaseOf(t.audits[i].basis) == FacePhase;
  }

  /** A holder that left before its audit write takes the hope with it. */
  lemma LostIsDoomed(cfg: Settings, s: State, tx: TxId)
    requires Inv(cfg, s) && Lost(s, tx)
    ensures Doomed(cfg, s, Job(tx, FacePhase), true)
  {
    var job := Job(tx, FacePhase);
    JobHere(cfg, s, job);
    forall a | a in s.attempts && s.attempts[a].job == job ensures !Deciders(s.attempts[a].pc) {
      assert AttemptOk(cfg, s, a, s.attempts[a]);
    }
  }

  // ----- hope can be lost without a holder -----

  /** The only attempt of transaction 0, and nobody has ever had the key. */
  predicate Keyless(s: State, pc: Pc) {
    && s.attempts == map[0 := Attempt(Job(0, FacePhase), pc)] && s.holders == map[] && s.trails == map[0 := EMPTY]
    && s.jobs == map[Job(0, FacePhase) := 0] && (pc.Discarding? || pc.Done? ==> FrameRef(0) !in s.store)
  }

  lemma KeylessThrow(cfg: Settings) returns (run: seq<Event>, s: State)
    requires Usable(cfg)
    ensures Reaches(cfg, PipelineWitness.Start(), run, s, Slack(cfg)) && Keyless(s, Deleting)
  {
    var s0, gap, job := PipelineWitness.Start(), Slack(cfg), Job(0, FacePhase);
    run, s := Submit(cfg, gap);
    hide Reaches;
    run, s := Then(cfg, s0, run, s, gap, Work(0, WorkEvent.Start(job)));
    assert Keyless(s, Getting);
    run, s := Then(cfg, s0, run, s, gap, Work(0, Throw));
  }

  lemma KeylessEnd(cfg: Settings) returns (run: seq<Event>, s: State)
    requires Usable(cfg)
    ensures Reaches(cfg, PipelineWitness.Start(), run, s, Slack(cfg)) && Keyless(s, Done)
  {
    run, s := KeylessThrow(cfg);
    hide Reaches, Enabled, Apply, Keyless;
    KeylessDelete(cfg, s);
    run, s := Then(cfg, PipelineWitness.Start(), run, s, Slack(cfg), Work(0, Delete));
    KeylessDiscard(cfg, s);
    run, s := Then(cfg, PipelineWitness.Start(), run, s, Slack(cfg), Work(0, Discard(true)));
  }

  lemma KeylessDelete(cfg: Settings, s: State)
    requires Keyless(s, Deleting)
    ensures Enabled(cfg, s, Work(0, Delete)) && Keyless(Apply(cfg, s, Work(0, Delete)), Discarding)
  {
    assert Apply(cfg, s, Work(0, Delete)) == DoDelete(s, 0);
  }

  lemma KeylessDiscard(cfg: Settings, s: State)
    requires Keyless(s, Discarding)
    ensures Enabled(cfg, s, Work(0, Discard(true))) && Keyless(Apply(cfg, s, Work(0, Discard(true))), Done)
  {
    assert Apply(cfg, s, Work(0, Discard(true))) == DoDiscard(s, 0, true);
  }

  /** A timely run in which an attempt throws before it has the key: nobody ever held the key, the
      frame is deleted, and no continuation, however slow, ever writes a row. */
  lemma ThrownBeforeKey(cfg: Settings) returns (run: seq<Event>)
    requires Usable(cfg)
    ensures GoodRun(cfg, PipelineWitness.Start(), run)
    ensures var s, job := Final(cfg, PipelineWitness.Start(), run), Job(0, FacePhase);
            HoldersOf(s, job) == [] && !Lost(s, 0) && Doomed(cfg, s, job, true) && Doomed(cfg, s, job, false)
  {
    var s;
    run, s := KeylessEnd(cfg);
    ReachesGood(cfg, PipelineWitness.Start(), run, s);
  }

  lemma ReachesGood(cfg: Settings, s0: State, run: seq<Event>, s: State)
    requires Reaches(cfg, s0, run, s, Slack(cfg))
    ensures GoodRun(cfg, s0, run) && Final(cfg, s0, run) == s
  {
    SlackIsTimely(cfg, s0, run);
  }

  /** A timely run in which nobody picks the job up before the frame has expired. */
  lemma ExpiredUnread(cfg: Settings) returns (run: seq<Event>)
    requires Usable(cfg)
    ensures GoodRun(cfg, PipelineWitness.Start(), run)
    ensures var s, job := Final(cfg, PipelineWitness.Start(), run), Job(0, FacePhase);
            s.attempts == map[] && Doomed(cfg, s, job, true) && Doomed(cfg, s, job, false)
  {
    var s, s0, gap := PipelineWitness.Start(), PipelineWitness.Start(), Slack(cfg);
    run, s := Submit(cfg, gap);
    hide Reaches;
    run, s := Then(cfg, s0, run, s, gap, Tick(cfg.frameTtlSeconds * 1000));
    ReachesGood(cfg, s0, run, s);
  }

  /** The same for a document check: its images expire unread, and the row says documento_requerido
      for ever. */
  lemma ImagesExpire(cfg: Settings) returns (run: seq<Event>)
    requires Retries(cfg)
    ensures GoodRun(cfg, PipelineWitness.Start(), run)
    ensures Doomed(cfg, Final(cfg, PipelineWitness.Start(), run), Job(0, DocumentPhase), true)
  {
    var s0 := PipelineWitness.Start();
    var s;
    run, s := ImagesSubmitted(cfg, Slack(cfg));
    assert s.trails[0].audits == [Grey(cfg)] && s.attempts[0].job.phase.FacePhase?;
    ReachesGood(cfg, s0, run, s);
    RunInv(cfg, s0, run);
    RefsExpire(cfg, s);
    hide Reaches, Inv, SentOnce, Grey;
    run, s := Then(cfg, s0, run, s, Slack(cfg), Tick(cfg.frameTtlSeconds * 1000));
    ReachesGood(cfg, s0, run, s);
  }

  lemma RefsExpire(cfg: Settings, s: State)
    requires Inv(cfg, s)
    ensures forall ref | ref in s.store :: s.store[ref].expiresAtMs <= s.now + cfg.frameTtlSeconds * 1000
  {
    forall ref | ref in s.store ensures s.store[ref].expiresAtMs <= s.now + cfg.frameTtlSeconds * 1000 {
      assert TxOk(cfg, s, ref.tx);
      match ref
      case FrameRef(tx) => assert RefOk(cfg, s, ref);
      case DocumentRef(tx) => assert RefOk(cfg, s, ref);
      case SelfieRef(tx) => assert RefOk(cfg, s, ref);
    }
  }
}
