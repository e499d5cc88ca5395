/** What one holder of a once-key is enough for, in runs of any speed: while no key of a transaction
    was taken twice, its verdict is final and its webhooks are told apart as in a timely run. */
module PipelineHolders {
  import opened Decision
  import opened Pipeline
  import opened PipelineInvariant
  import opened PipelineTheorems
  import opened PipelineAnyRun
  import opened PipelineTruth
  import opened PipelineSources
  import opened PipelineApproval
  import opened PipelineFate

  // ----- the audit rows of one phase -----

  function OfPhase(vs: seq<Verdict>, phase: Phase): seq<Verdict> {
    if vs == [] then []
    else
      var v := vs[|vs| - 1];
      OfPhase(vs[..|vs| - 1], phase) + if PhaseOf(v.basis) == phase then [v] else []
  }

  lemma OfPhaseNext(vs: seq<Verdict>, v: Verdict, phase: Phase)
    ensures OfPhase(vs + [v], phase) == OfPhase(vs, phase) + if PhaseOf(v.basis) == phase then [v] else []
  {
    assert (vs + [v])[..|vs|] == vs;
  }

  lemma {:induction false} OfPhaseMeans(vs: seq<Verdict>, phase: Phase)
    ensures forall v | v in OfPhase(vs, phase) :: v in vs && PhaseOf(v.basis) == phase
    ensures forall v | v in vs && PhaseOf(v.basis) == phase :: v in OfPhase(vs, phase)
  {
    if vs != [] {
      OfPhaseMeans(vs[..|vs| - 1], phase);
      assert vs == vs[..|vs| - 1] + [vs[|vs| - 1]];
    }
  }

  lemma {:induction false} BothPhases(vs: seq<Verdict>)
    ensures |vs| == |OfPhase(vs, FacePhase)| + |OfPhase(vs, DocumentPhase)|
  {
    if vs != [] { BothPhases(vs[..|vs| - 1]); }
  }

  // ----- one holder -----

  function RowsOf(s: State, job: Job): seq<Verdict> {
    if job.tx in s.trails then OfPhase(s.trails[job.tx].audits, job.phase) else []
  }

  /** Whoever is past the acquire is the holder, and writes one row. */
  ghost predicate Sole(s: State, job: Job) {
    var h := HoldersOf(s, job);
    && |RowsOf(s, job)| <= |h|
    && (h != [] ==> h[0].attempt in s.attempts && s.attempts[h[0].attempt].job == job)
    && (forall a | a in s.attempts && s.attempts[a].job == job && Holding(s.attempts[a].pc) ::
          h != [] && h[0].attempt == a && (Deciders(s.attempts[a].pc) ==> RowsOf(s, job) == []))
  }

  /** While the key was taken at most once. */
  ghost predicate SoleIfOne(s: State, job: Job) {
    |HoldersOf(s, job)| <= 1 ==> Sole(s, job)
  }

  /** The first row is that of the face check. */
  ghost predicate FaceFirst(s: State) {
    forall tx | tx in s.trails && s.trails[tx].audits != [] :: s.trails[tx].audits[0].basis.ByFace?
  }

  /** A step that adds no holder and no row, and lets nobody past the acquire. */
  lemma QuietSole(s: State, t: State, job: Job)
    requires SoleIfOne(s, job) && HoldersOf(t, job) == HoldersOf(s, job) && RowsOf(t, job) == RowsOf(s, job)
    requires forall a | a in s.attempts :: a in t.attempts && t.attempts[a].job == s.attempts[a].job
    requires forall a | a in t.attempts && t.attempts[a].job == job && Holding(t.attempts[a].pc) ::
               a in s.attempts && s.attempts[a].job == job && Holding(s.attempts[a].pc)
               && (Deciders(t.attempts[a].pc) ==> Deciders(s.attempts[a].pc))
    ensures SoleIfOne(t, job)
  {
    hide Holding, Deciders;
  }

  lemma AuditSole(s: State, a: AttemptId, job: Job)
    requires SoleIfOne(s, job) && At(s, a) && s.attempts[a].pc.Auditing? && CarriesOwn(s.attempts[a])
    ensures SoleIfOne(DoAudit(s, a), job)
  {
    AuditAddsRow(s, a, job);
    hide OfPhase, DoAudit, SoleIfOne, RowsOf;
    RowSole(s, DoAudit(s, a), a, job);
  }

  lemma AuditAddsRow(s: State, a: AttemptId, job: Job)
    requires At(s, a) && s.attempts[a].pc.Auditing? && CarriesOwn(s.attempts[a])
    ensures var t, x := DoAudit(s, a), s.attempts[a];
            && RowsOf(t, job) == RowsOf(s, job) + (if x.job == job then [x.pc.v] else [])
            && HoldersOf(t, job) == HoldersOf(s, job)
            && t.attempts == s.attempts[a := Attempt(x.job, Recording(x.pc.v, x.pc.token))]
  {
    hide OfPhase;
    AuditRow(s, a);
    var x := s.attempts[a];
    assert PhaseOf(x.pc.v.basis) == x.job.phase;
    hide DoAudit, CarriesOwn, PhaseOf;
    if x.job.tx == job.tx {
      assert x.job == job <==> x.job.phase == job.phase;
      OfPhaseNext(s.trails[job.tx].audits, x.pc.v, job.phase);
    }
  }

  lemma AuditRow(s: State, a: AttemptId)
    requires At(s, a) && s.attempts[a].pc.Auditing?
    ensures var t, x := DoAudit(s, a), s.attempts[a];
            && t.holders == s.holders && t.attempts == s.attempts[a := Attempt(x.job, Recording(x.pc.v, x.pc.token))]
            && x.job.tx in t.trails && t.trails == s.trails[x.job.tx := t.trails[x.job.tx]]
            && t.trails[x.job.tx].audits == s.trails[x.job.tx].audits + [x.pc.v]
  {
  }

  lemma RowSole(s: State, t: State, a: AttemptId, job: Job)
    requires SoleIfOne(s, job) && a in s.attempts && s.attempts[a].pc.Auditing?
    requires HoldersOf(t, job) == HoldersOf(s, job)
    requires RowsOf(t, job) == RowsOf(s, job) + (if s.attempts[a].job == job then [s.attempts[a].pc.v] else [])
    requires t.attempts == s.attempts[a := Attempt(s.attempts[a].job,
               Recording(s.attempts[a].pc.v, s.attempts[a].pc.token))]
    ensures SoleIfOne(t, job)
  {
  }

  lemma AcquireSole(cfg: Settings, s: State, a: AttemptId, job: Job)
    requires SoleIfOne(s, job) && At(s, a) && s.attempts[a].pc.Acquiring?
    ensures SoleIfOne(DoAcquire(cfg, s, a), job)
  {
    var t := DoAcquire(cfg, s, a);
    assert RowsOf(t, job) == RowsOf(s, job);
    hide OfPhase;
  }

  /** The other steps. */
  lemma WorkSole(cfg: Settings, s: State, a: AttemptId, w: WorkEvent, job: Job)
    requires SoleIfOne(s, job) && Settled(s) && WorkEnabled(cfg, s, a, w)
    ensures SoleIfOne(WorkApply(cfg, s, a, w), job)
  {
    hide SoleIfOne, CarriesOwn, PhaseFits, RowsOf;
    if a in s.attempts { Placed(s, a); }
    if w.WriteAudit? {
      AuditSole(s, a, job);
    } else if w.Acquire? {
      AcquireSole(cfg, s, a, job);
    } else {
      OtherSole(cfg, s, a, w, job);
      hide Settled, WorkApply, WorkEnabled;
      QuietSole(s, WorkApply(cfg, s, a, w), job);
    }
  }

  lemma OtherSole(cfg: Settings, s: State, a: AttemptId, w: WorkEvent, job: Job)
    requires Settled(s) && WorkEnabled(cfg, s, a, w) && !w.WriteAudit? && !w.Acquire?
    ensures var t := WorkApply(cfg, s, a, w);
            && HoldersOf(t, job) == HoldersOf(s, job) && RowsOf(t, job) == RowsOf(s, job)
            && (forall b | b in s.attempts :: b in t.attempts && t.attempts[b].job == s.attempts[b].job)
            && (forall b | b in t.attempts && t.attempts[b].job == job && Holding(t.attempts[b].pc) ::
                  b in s.attempts && s.attempts[b].job == job && Holding(s.attempts[b].pc)
                  && (Deciders(t.attempts[b].pc) ==> Deciders(s.attempts[b].pc)))
  {
    hide Settled, WorkApply, WorkEnabled, Holding, Deciders, RowsOf;
    OneAttemptMoves(cfg, s, a, w);
    RowsStay(cfg, s, a, w, job);
    StaysInside(cfg, s, a, w);
    KeyMoves(cfg, s, a, w, job);
  }

  lemma RowsStay(cfg: Settings, s: State, a: AttemptId, w: WorkEvent, job: Job)
    requires WorkEnabled(cfg, s, a, w) && !w.WriteAudit?
    ensures RowsOf(WorkApply(cfg, s, a, w), job) == RowsOf(s, job)
  {
    StepWorksOn(cfg, s, a, w);
    if job.tx in s.trails { WorkAuditsMove(cfg, s, a, w, job.tx); }
    hide WorkApply, WorkEnabled, OfPhase;
  }

  /** Only an acquire leads past the acquire. */
  lemma StaysInside(cfg: Settings, s: State, a: AttemptId, w: WorkEvent)
    requires WorkEnabled(cfg, s, a, w) && !w.Acquire?
    ensures var t := WorkApply(cfg, s, a, w);
            a in t.attempts && (Holding(t.attempts[a].pc) ==>
              && a in s.attempts && Holding(s.attempts[a].pc)
              && (Deciders(t.attempts[a].pc) ==> Deciders(s.attempts[a].pc)))
  {
    hide Storable, AfterTenant, DecideVerification, Found;
    if WritesTrail(w) { WriteInside(cfg, s, a, w); } else { QuietInside(cfg, s, a, w); }
    hide WorkApply, WorkEnabled;
  }

  lemma WriteInside(cfg: Settings, s: State, a: AttemptId, w: WorkEvent)
    requires WorkEnabled(cfg, s, a, w) && WritesTrail(w)
    ensures var t := WorkApply(cfg, s, a, w);
            a in s.attempts && a in t.attempts && Holding(s.attempts[a].pc)
            && (Deciders(t.attempts[a].pc) ==> Deciders(s.attempts[a].pc))
  {
    hide Storable;
    match w
    case IssueToken(token) => assert WorkApply(cfg, s, a, w) == DoIssue(s, a, token);
    case WriteAudit => assert WorkApply(cfg, s, a, w) == DoAudit(s, a);
    case WriteRecord => assert WorkApply(cfg, s, a, w) == DoRecord(s, a);
    case Send(ok) => assert WorkApply(cfg, s, a, w) == DoSend(cfg, s, a, ok);
    case _ =>
  }

  lemma QuietInside(cfg: Settings, s: State, a: AttemptId, w: WorkEvent)
    requires WorkEnabled(cfg, s, a, w) && !w.Acquire? && !WritesTrail(w)
    ensures var t := WorkApply(cfg, s, a, w);
            a in t.attempts && (Holding(t.attempts[a].pc) ==>
              a in s.attempts && Holding(s.attempts[a].pc) && Deciders(s.attempts[a].pc))
  {
    if w.ReadTenant? || w.Analyze? || w.VerifyDocument? {
      assert Holding(s.attempts[a].pc) && Deciders(s.attempts[a].pc);
      OneAttemptMoves(cfg, s, a, w);
    } else {
      NotInside(cfg, s, a, w);
    }
    hide WorkApply, WorkEnabled;
  }

  lemma NotInside(cfg: Settings, s: State, a: AttemptId, w: WorkEvent)
    requires WorkEnabled(cfg, s, a, w) && !w.Acquire? && !WritesTrail(w)
    requires !w.ReadTenant? && !w.Analyze? && !w.VerifyDocument?
    ensures var t := WorkApply(cfg, s, a, w); a in t.attempts && !Holding(t.attempts[a].pc)
  {
    hide Found;
  }

  // ----- the first row -----

  lemma StepFaceFirst(cfg: Settings, s: State, e: Event)
    requires FaceFirst(s) && Settled(s) && Truthful(s) && Enabled(cfg, s, e)
    ensures FaceFirst(Apply(cfg, s, e))
  {
    var t := Apply(cfg, s, e);
    StepProgress(cfg, s, e);
    hide Enabled, Apply, Settled, Truthful;
    forall tx | tx in t.trails && t.trails[tx].audits != [] ensures t.trails[tx].audits[0].basis.ByFace? {
      if tx !in s.trails {
        NewTrail(cfg, s, e, tx);
      } else if s.trails[tx].audits == [] {
        FirstRow(cfg, s, e, tx);
      } else {
        assert Longer(s.trails[tx], t.trails[tx]);
      }
    }
  }

  lemma NewTrail(cfg: Settings, s: State, e: Event, tx: TxId)
    requires Enabled(cfg, s, e) && tx !in s.trails && tx in Apply(cfg, s, e).trails
    ensures Apply(cfg, s, e).trails[tx].audits == []
  {
    match e
    case Http(r, h) => HttpNewTrail(cfg, s, r, h, tx);
    case Work(a, w) =>
      StepWorksOn(cfg, s, a, w);
      hide WorkApply, WorkEnabled;
    case _ =>
  }

  lemma FirstRow(cfg: Settings, s: State, e: Event, tx: TxId)
    requires Settled(s) && Truthful(s) && Enabled(cfg, s, e) && tx in s.trails && s.trails[tx].audits == []
    requires tx in Apply(cfg, s, e).trails && Apply(cfg, s, e).trails[tx].audits != []
    ensures Apply(cfg, s, e).trails[tx].audits[0].basis.ByFace?
  {
    AuditsMove(cfg, s, e, tx);
    hide Settled, Truthful;
    Placed(s, e.a);
    NoDocumentYet(s, e.a);
    FirstWritten(cfg, s, e.a, tx);
  }

  lemma FirstWritten(cfg: Settings, s: State, a: AttemptId, tx: TxId)
    requires WorkEnabled(cfg, s, a, WriteAudit) && tx == s.attempts[a].job.tx && s.trails[tx].audits == []
    requires CarriesOwn(s.attempts[a]) && s.attempts[a].job.phase.FacePhase?
    ensures var t := WorkApply(cfg, s, a, WriteAudit);
            tx in t.trails && t.trails[tx].audits != [] && t.trails[tx].audits[0].basis.ByFace?
  {
    AuditRow(s, a);
  }

  /** A document check presupposes a row. */
  lemma NoDocumentYet(s: State, a: AttemptId)
    requires Settled(s) && Truthful(s) && At(s, a) && s.trails[s.attempts[a].job.tx].audits == []
    ensures s.attempts[a].job.phase.FacePhase?
  {
    var tx := s.attempts[a].job.tx;
    assert TrailTrue(tx, s.trails[tx]);
    assert s.attempts[a].job.phase.DocumentPhase? ==> WasGrey(s.trails[tx]);
  }

  // ----- whole runs -----

  lemma StepSole(cfg: Settings, s: State, e: Event, job: Job)
    requires SoleIfOne(s, job) && Settled(s) && Enabled(cfg, s, e)
    ensures SoleIfOne(Apply(cfg, s, e), job)
  {
    if e.Work? {
      WorkSole(cfg, s, e.a, e.w, job);
    } else {
      QuietAttempts(cfg, s, e);
      OnceUnmoved(cfg, s, e);
      hide Settled, HttpApply, HttpEnabled;
      DeskSole(cfg, s, e, job);
    }
  }

  lemma DeskSole(cfg: Settings, s: State, e: Event, job: Job)
    requires SoleIfOne(s, job) && Enabled(cfg, s, e) && !e.Work?
    requires var t := Apply(cfg, s, e);
             && t.attempts == s.attempts && t.holders == s.holders
             && forall tx | tx in t.trails && t.trails[tx].audits != [] ::
                  tx in s.trails && t.trails[tx].audits == s.trails[tx].audits
    ensures SoleIfOne(Apply(cfg, s, e), job)
  {
    var t := Apply(cfg, s, e);
    StepProgress(cfg, s, e);
    hide Enabled, Apply;
    if job.tx in s.trails { assert Longer(s.trails[job.tx], t.trails[job.tx]); }
    assert RowsOf(t, job) == RowsOf(s, job);
    QuietSole(s, t, job);
  }

  ghost predicate Ordered(s: State, job: Job) {
    SoleIfOne(s, job) && FaceFirst(s)
  }

  lemma {:induction false} RunOrdered(cfg: Settings, s0: State, run: seq<Event>, job: Job)
    requires FromStart(s0) && Legal(cfg, s0, run)
    ensures Ordered(Final(cfg, s0, run), job)
    decreases |run|
  {
    if run != [] {
      RunOrdered(cfg, s0, Front(run), job);
      RunSettled(cfg, s0, Front(run));
      RunTruth(cfg, s0, Front(run));
      hide Settled, Truthful, SoleIfOne, FaceFirst, Enabled, Apply;
      StepSole(cfg, Final(cfg, s0, Front(run)), run[|run| - 1], job);
      StepFaceFirst(cfg, Final(cfg, s0, Front(run)), run[|run| - 1]);
    }
  }

  // ----- what follows for a transaction whose keys were taken once -----

  /** No key of the transaction was taken twice. */
  predicate KeysOnce(s: State, tx: TxId) {
    |HoldersOf(s, Job(tx, FacePhase))| <= 1 && |HoldersOf(s, Job(tx, DocumentPhase))| <= 1
  }

  /** Its rows are none, that of the face check, or that and the one of the document check. */
  ghost predicate RowsInOrder(t: Trail) {
    && |t.audits| <= 2
    && (|t.audits| >= 1 ==> FaceVerdict(t.audits[0]))
    && (|t.audits| == 2 ==> DocumentVerdict(t.audits[1]) && t.audits[0].status == DocumentoRequerido)
  }

  lemma KeysOnceOrders(cfg: Settings, s0: State, run: seq<Event>, tx: TxId)
    requires FromStart(s0) && Legal(cfg, s0, run)
    requires tx in Final(cfg, s0, run).trails && KeysOnce(Final(cfg, s0, run), tx)
    ensures RowsInOrder(Final(cfg, s0, run).trails[tx])
  {
    RunOrdered(cfg, s0, run, Job(tx, FacePhase));
    RunOrdered(cfg, s0, run, Job(tx, DocumentPhase));
    RunTruth(cfg, s0, run);
    RunEscalated(cfg, s0, run);
    var s := Final(cfg, s0, run);
    hide Legal, Final;
    BothPhases(s.trails[tx].audits);
    OfPhaseMeans(s.trails[tx].audits, FacePhase);
    OfPhaseMeans(s.trails[tx].audits, DocumentPhase);
    RowsAre(s, tx);
  }

  lemma RowsAre(s: State, tx: TxId)
    requires Truthful(s) && Escalated(s) && FaceFirst(s) && tx in s.trails
    requires |OfPhase(s.trails[tx].audits, FacePhase)| <= 1 && |OfPhase(s.trails[tx].audits, DocumentPhase)| <= 1
    ensures RowsInOrder(s.trails[tx])
  {
    var t := s.trails[tx];
    BothPhases(t.audits);
    assert TrailTrue(tx, t);
    if t.audits != [] {
      assert t.audits[0] in t.audits && Ruled(t.audits[0]);
      if |t.audits| == 2 { SecondRow(s, tx); }
    }
  }

  lemma SecondRow(s: State, tx: TxId)
    requires Truthful(s) && Escalated(s) && FaceFirst(s) && tx in s.trails && |s.trails[tx].audits| == 2
    requires |OfPhase(s.trails[tx].audits, FacePhase)| <= 1
    ensures DocumentVerdict(s.trails[tx].audits[1]) && s.trails[tx].audits[0].status == DocumentoRequerido
  {
    var t := s.trails[tx];
    assert t.audits == [] + [t.audits[0]] + [t.audits[1]];
    OfPhaseNext([], t.audits[0], FacePhase);
    OfPhaseNext([] + [t.audits[0]], t.audits[1], FacePhase);
    assert TrailTrue(tx, t) && t.audits[1] in t.audits && Ruled(t.audits[1]);
    assert WasGrey(t);
    var g :| g in t.records && g.status == DocumentoRequerido;
    assert g in t.audits && Ruled(g);
  }

  /** In a timely run no key is taken twice. */
  lemma TimelyOnce(cfg: Settings, s0: State, run: seq<Event>, tx: TxId)
    requires GoodRun(cfg, s0, run)
    ensures KeysOnce(Final(cfg, s0, run), tx)
  {
    AtMostOnce(cfg, s0, run, Job(tx, FacePhase));
    AtMostOnce(cfg, s0, run, Job(tx, DocumentPhase));
  }

  /** Over every legal run in which no key of the transaction was taken twice, its audit row may turn
      from documento_requerido into a verdict of the document check of the same tenant, and never
      changes otherwise. */
  lemma VerdictFinal(cfg: Settings, s0: State, run: seq<Event>, k: nat, tx: TxId)
    requires FromStart(s0) && Legal(cfg, s0, run) && k <= |run| && Legal(cfg, s0, run[..k])
    requires KeysOnce(Final(cfg, s0, run), tx) && tx in Final(cfg, s0, run[..k]).audit
    ensures var before, after := Final(cfg, s0, run[..k]).audit[tx], Final(cfg, s0, run).audit;
            && tx in after
            && (before.verdict.status != DocumentoRequerido ==> after[tx] == before)
            && (after[tx] != before ==> before.verdict.basis.ByFace? && DocumentVerdict(after[tx].verdict)
                                        && after[tx].tenant == before.tenant)
  {
    RunProgress(cfg, s0, run, k);
    RunTruth(cfg, s0, run);
    RunTruth(cfg, s0, run[..k]);
    var s, t := Final(cfg, s0, run[..k]), Final(cfg, s0, run);
    LastRow(s, tx);
    assert Longer(s.trails[tx], t.trails[tx]);
    KeysOnceOrders(cfg, s0, run, tx);
    LastRow(t, tx);
    hide Legal, Final, Truthful, Progress, KeysOnce, RowsInOrder, RowOk;
    RowFollows(s, t, tx);
  }

  lemma RowFollows(s: State, t: State, tx: TxId)
    requires tx in s.audit && tx in s.trails && tx in t.trails && Longer(s.trails[tx], t.trails[tx])
    requires RowOk(s.audit, tx, s.trails[tx].tenant, s.trails[tx].audits)
    requires RowOk(t.audit, tx, t.trails[tx].tenant, t.trails[tx].audits) && RowsInOrder(t.trails[tx])
    ensures tx in t.audit && (s.audit[tx].verdict.status != DocumentoRequerido ==> t.audit[tx] == s.audit[tx])
    ensures t.audit[tx] != s.audit[tx] ==>
              && s.audit[tx].verdict.basis.ByFace? && DocumentVerdict(t.audit[tx].verdict)
              && t.audit[tx].tenant == s.audit[tx].tenant
  {
    var u, v := s.trails[tx].audits, t.trails[tx].audits;
    assert u == v[..|u|];
  }

  /** The row is the last one written. */
  lemma LastRow(s: State, tx: TxId)
    requires Truthful(s)
    ensures tx in s.audit ==> tx in s.trails
    ensures tx in s.trails ==> RowOk(s.audit, tx, s.trails[tx].tenant, s.trails[tx].audits)
  {
    assert RowsTrue(s, tx);
  }

  /** Over every such run, a webhook request shows the status of the row as it is, except when the
      face check is still retrying after the document check has written its verdict. */
  lemma WebhookIsCurrent(cfg: Settings, s0: State, run: seq<Event>, a: AttemptId, ok: bool)
    requires FromStart(s0) && Legal(cfg, s0, run) && WorkEnabled(cfg, Final(cfg, s0, run), a, Send(ok))
    requires KeysOnce(Final(cfg, s0, run), Final(cfg, s0, run).attempts[a].job.tx)
    ensures var s := Final(cfg, s0, run);
            var tx := s.attempts[a].job.tx;
            var t := DoSend(cfg, s, a, ok).trails[tx];
            && |t.sent| > 0 && tx in s.audit
            && (t.sent[|t.sent| - 1].status == s.audit[tx].verdict.status
                <==> s.attempts[a].job.phase.DocumentPhase? || |s.trails[tx].audits| == 1)
  {
    var s := Final(cfg, s0, run);
    KeysOnceOrders(cfg, s0, run, s.attempts[a].job.tx);
    RunTruth(cfg, s0, run);
    RunSettled(cfg, s0, run);
    Placed(s, a);
    LastRow(s, s.attempts[a].job.tx);
    assert AttemptTrue(s, s.attempts[a]);
    hide Settled, Truthful, KeysOnce, Legal, Final;
    SendIsCurrent(cfg, s, a, ok);
  }

  lemma SendIsCurrent(cfg: Settings, s: State, a: AttemptId, ok: bool)
    requires WorkEnabled(cfg, s, a, Send(ok)) && CarriesOwn(s.attempts[a]) && AttemptTrue(s, s.attempts[a])
    requires var t := s.trails[s.attempts[a].job.tx];
             RowsInOrder(t) && RowOk(s.audit, s.attempts[a].job.tx, t.tenant, t.audits)
    ensures var tx := s.attempts[a].job.tx;
            var t := DoSend(cfg, s, a, ok).trails[tx];
            && |t.sent| > 0 && tx in s.audit
            && (t.sent[|t.sent| - 1].status == s.audit[tx].verdict.status
                <==> s.attempts[a].job.phase.DocumentPhase? || |s.trails[tx].audits| == 1)
  {
    var v, t := s.attempts[a].pc.v, s.trails[s.attempts[a].job.tx];
    assert v in t.audits && PhaseOf(v.basis) == s.attempts[a].job.phase;
    var i :| 0 <= i < |t.audits| && t.audits[i] == v;
  }
}
