/** What an approval is worth, over whole runs. */
module PipelineApproval {
  import opened Wrappers
  import opened Decision
  import opened Pipeline
  import opened PipelineTheorems
  import opened PipelineAnyRun
  import opened PipelineTruth
  import opened PipelineSources

  // ----- a document phase follows a grey-zone face -----

  /** The record table has held documento_requerido for the transaction. */
  predicate WasGrey(t: Trail) {
    exists g :: g in t.records && g.status == DocumentoRequerido
  }

  predicate InDocumentPhase(q: Request) {
    q.TookDocumentSession? || q.DocumentAdmitted? || q.DocumentStored? || q.BothStored?
  }

  /** The verdict under way is of the attempt's own phase. */
  predicate CarriesOwn(x: Attempt) {
    Carried(x.pc).Some? ==> PhaseOf(Carried(x.pc).value) == x.job.phase
  }

  ghost predicate Escalated(s: State) {
    && (forall job | job in s.jobs && job.phase.DocumentPhase? :: job.tx in s.trails && WasGrey(s.trails[job.tx]))
    && (forall r | r in s.requests && InDocumentPhase(s.requests[r]) ::
          s.requests[r].tx in s.trails && WasGrey(s.trails[s.requests[r].tx]))
    && (forall a | a in s.attempts :: CarriesOwn(s.attempts[a]))
    && (forall tx, v | tx in s.trails && v in s.trails[tx].audits && v.basis.ByDocument? :: WasGrey(s.trails[tx]))
  }

  lemma StaysGrey(t: Trail, u: Trail)
    requires WasGrey(t) && t.records <= u.records
    ensures WasGrey(u)
  {
    var g :| g in t.records && g.status == DocumentoRequerido;
    assert g in u.records;
  }

  /** Grey stays grey, and trails stay. */
  ghost predicate KeepsGrey(s: State, t: State) {
    forall tx | tx in s.trails :: tx in t.trails && (WasGrey(s.trails[tx]) ==> WasGrey(t.trails[tx]))
  }

  lemma ProgressStaysGrey(s: State, t: State)
    requires Progress(s, t)
    ensures KeepsGrey(s, t)
  {
    forall tx | tx in s.trails && WasGrey(s.trails[tx]) ensures WasGrey(t.trails[tx]) {
      assert Longer(s.trails[tx], t.trails[tx]);
      StaysGrey(s.trails[tx], t.trails[tx]);
    }
  }

  /** Whoever presents a document token has it from a request that said documento_requerido. */
  lemma RevealedWasGrey(s: State, tx: TxId, token: Token)
    requires Truthful(s) && Revealed(s, tx, token)
    ensures WasGrey(s.trails[tx])
  {
    var t := s.trails[tx];
    var i :| 0 <= i < |t.sent| && t.sent[i].token == Some(token);
    assert TrailTrue(tx, t);
    assert SaysWhatWasWritten(t, tx, t.sent[i]);
  }

  lemma WorkEscalated(cfg: Settings, s: State, a: AttemptId, w: WorkEvent)
    requires Escalated(s) && Rooted(s) && WorkEnabled(cfg, s, a, w)
    ensures Escalated(WorkApply(cfg, s, a, w))
  {
    WorkProgress(cfg, s, a, w);
    ProgressStaysGrey(s, WorkApply(cfg, s, a, w));
    StepWorksOn(cfg, s, a, w);
    CarriesOn(cfg, s, a, w);
    NewAudits(cfg, s, a, w);
    hide WorkApply, WorkEnabled, Rooted, Progress, Escalated, KeepsGrey, CarriesOwn, WasGrey;
    WorkedGrey(s, WorkApply(cfg, s, a, w), a);
  }

  lemma WorkedGrey(s: State, t: State, a: AttemptId)
    requires Escalated(s) && KeepsGrey(s, t) && WorksOn(s, t, a) && CarriesOwn(t.attempts[a])
    requires forall tx, v | tx in t.trails && v in t.trails[tx].audits && v.basis.ByDocument? :: WasGrey(t.trails[tx])
    ensures Escalated(t)
  {
    hide WasGrey, CarriesOwn, Longer;
  }

  lemma CarriesOn(cfg: Settings, s: State, a: AttemptId, w: WorkEvent)
    requires Escalated(s) && Rooted(s) && WorkEnabled(cfg, s, a, w)
    ensures var t := WorkApply(cfg, s, a, w); a in t.attempts && CarriesOwn(t.attempts[a])
  {
    CarriedStep(cfg, s, a, w);
    OneAttemptMoves(cfg, s, a, w);
    if w.ReadTenant? {
      assert AttemptRooted(s, s.attempts[a]);
      ReadFits(cfg, s, a);
    }
    hide WorkApply, WorkEnabled, Rooted, Carried;
  }

  lemma NewAudits(cfg: Settings, s: State, a: AttemptId, w: WorkEvent)
    requires Escalated(s) && Rooted(s) && WorkEnabled(cfg, s, a, w)
    ensures var t := WorkApply(cfg, s, a, w);
            forall tx, v | tx in t.trails && v in t.trails[tx].audits && v.basis.ByDocument? :: WasGrey(t.trails[tx])
  {
    var t := WorkApply(cfg, s, a, w);
    WorkLeavesDesk(cfg, s, a, w);
    WorkProgress(cfg, s, a, w);
    ProgressStaysGrey(s, t);
    hide WorkApply, WorkEnabled, Progress, WasGrey, Escalated, Rooted;
    forall tx, v | tx in t.trails && v in t.trails[tx].audits && v.basis.ByDocument? ensures WasGrey(t.trails[tx]) {
      AuditWasGrey(cfg, s, a, w, tx, v);
    }
  }

  lemma AuditWasGrey(cfg: Settings, s: State, a: AttemptId, w: WorkEvent, tx: TxId, v: Verdict)
    requires Escalated(s) && Rooted(s) && WorkEnabled(cfg, s, a, w) && tx in s.trails && v.basis.ByDocument?
    requires var t := WorkApply(cfg, s, a, w); tx in t.trails && v in t.trails[tx].audits
    ensures WasGrey(s.trails[tx])
  {
    hide WorkApply, WorkEnabled, WasGrey, Escalated, Rooted;
    var audits := WorkApply(cfg, s, a, w).trails[tx].audits;
    var k :| 0 <= k < |audits| && audits[k] == v;
    AuditCarries(cfg, s, a, w, tx, k);
    AuditedWasGrey(s, a, tx, v);
  }

  /** A document verdict, written or about to be, is of a grey transaction. */
  lemma AuditedWasGrey(s: State, a: AttemptId, tx: TxId, v: Verdict)
    requires Escalated(s) && Rooted(s) && tx in s.trails && v.basis.ByDocument?
    ensures v in s.trails[tx].audits ==> WasGrey(s.trails[tx])
    ensures a in s.attempts && s.attempts[a].job.tx == tx && s.attempts[a].pc.Auditing? && s.attempts[a].pc.v == v ==>
              WasGrey(s.trails[tx])
  {
    hide WasGrey;
    if a in s.attempts && s.attempts[a].job.tx == tx && s.attempts[a].pc.Auditing? && s.attempts[a].pc.v == v {
      assert CarriesOwn(s.attempts[a]) && AttemptRooted(s, s.attempts[a]);
    }
  }

  lemma HttpEscalated(cfg: Settings, s: State, r: RequestId, h: HttpEvent)
    requires Escalated(s) && Truthful(s) && HttpEnabled(cfg, s, r, h)
    ensures Escalated(HttpApply(cfg, s, r, h))
  {
    var t := HttpApply(cfg, s, r, h);
    if h.TakeDocumentSession? { RevealedWasGrey(s, s.documentSessions[h.token].tx, h.token); }
    HttpProgress(cfg, s, r, h);
    ProgressStaysGrey(s, t);
    HttpWrites(cfg, s, r, h);
    HttpDocuments(cfg, s, r, h);
    assert h.TakeDocumentSession? ==> s.documentSessions[h.token].tx in s.trails;
    hide HttpApply, HttpEnabled, Truthful, Progress, WasGrey, CarriesOwn, OnlyNewTrails, Escalated, KeepsGrey;
    HandledGrey(s, t, r, if h.TakeDocumentSession? then Some(s.documentSessions[h.token].tx) else None);
  }

  lemma HandledGrey(s: State, t: State, r: RequestId, taken: Option<TxId>)
    requires Escalated(s) && KeepsGrey(s, t) && OnlyNewTrails(s, t) && t.attempts == s.attempts
    requires DocumentsComeFrom(s, t, r, taken)
    requires taken.Some? ==> taken.value in s.trails && WasGrey(s.trails[taken.value])
    ensures Escalated(t)
  {
    hide WasGrey, CarriesOwn;
    forall tx, v | tx in t.trails && v in t.trails[tx].audits && v.basis.ByDocument? ensures WasGrey(t.trails[tx]) {
      assert tx in s.trails && SameText(s.trails[tx], t.trails[tx]);
    }
  }

  /** Requests come into the document phase by a document session, and document jobs by such a
      request. */
  ghost predicate DocumentsComeFrom(s: State, t: State, r: RequestId, taken: Option<TxId>) {
    && (forall q | q in t.requests && q != r :: q in s.requests && t.requests[q] == s.requests[q])
    && (r in t.requests && InDocumentPhase(t.requests[r]) ==>
          if taken.Some? then t.requests[r].tx == taken.value
          else r in s.requests && InDocumentPhase(s.requests[r]) && t.requests[r].tx == s.requests[r].tx)
    && (forall job | job in t.jobs && job.phase.DocumentPhase? :: job in s.jobs
          || (r in s.requests && InDocumentPhase(s.requests[r]) && s.requests[r].tx == job.tx))
  }

  lemma HttpDocuments(cfg: Settings, s: State, r: RequestId, h: HttpEvent)
    requires HttpEnabled(cfg, s, r, h)
    ensures DocumentsComeFrom(s, HttpApply(cfg, s, r, h), r,
                              if h.TakeDocumentSession? then Some(s.documentSessions[h.token].tx) else None)
  {
  }

  lemma StepEscalated(cfg: Settings, s: State, e: Event)
    requires Escalated(s) && Truthful(s) && Rooted(s) && Enabled(cfg, s, e)
    ensures Escalated(Apply(cfg, s, e))
  {
    hide Truthful, Rooted, WasGrey, Carried;
    match e
    case Http(r, h) => HttpEscalated(cfg, s, r, h);
    case Work(a, w) => WorkEscalated(cfg, s, a, w);
    case _ =>
  }

  /** In every legal run a document request, a document job or a document verdict means that the
      face check of the transaction was recorded as documento_requerido. */
  lemma {:induction false} RunEscalated(cfg: Settings, s0: State, run: seq<Event>)
    requires FromStart(s0) && Legal(cfg, s0, run)
    ensures Escalated(Final(cfg, s0, run))
    decreases |run|
  {
    if run != [] {
      RunEscalated(cfg, s0, Front(run));
      RunTruth(cfg, s0, Front(run));
      RunRooted(cfg, s0, Front(run));
      hide Escalated, Truthful, Rooted, Enabled, Apply;
      StepEscalated(cfg, Final(cfg, s0, Front(run)), run[|run| - 1]);
    }
  }

  // ----- verdicts -----

  /** The status is what the rule of its phase makes of the measurement, over the configured numbers,
      for a tenant that requires that age. */
  predicate FollowsRule(cfg: Settings, age: int, v: Verdict) {
    match v.basis
    case ByFace(r, _) => FaceRule(cfg.decision, age, r, v.status)
    case ByDocument(c, at, _, _) => v.status == if DocumentPasses(c, age, cfg.minFaceMatch, at) then Aprovado
      else Reprovado
  }

  /** Attempt a read that age and was given the measurement, and the status follows from the two. */
  ghost predicate Rests(cfg: Settings, s0: State, run: seq<Event>, a: AttemptId, i: int, j: int, age: int, tx: TxId,
      v: Verdict)
  {
    Founding(cfg, s0, run, a, i, j, age, tx, v.basis) && FollowsRule(cfg, age, v)
  }

  /** Of one attempt, some age read and some measurement are behind the verdict. */
  ghost predicate RestsOnReading(cfg: Settings, s0: State, run: seq<Event>, tx: TxId, v: Verdict) {
    exists a, i, j, age :: Rests(cfg, s0, run, a, i, j, age, tx, v)
  }

  /** Over every legal run, every verdict ever audited is what the rule makes of what one attempt was
      given and of the age that the same attempt read. */
  lemma VerdictExact(cfg: Settings, s0: State, run: seq<Event>, tx: TxId, v: Verdict)
    requires FromStart(s0) && Legal(cfg, s0, run)
    requires tx in Final(cfg, s0, run).trails && v in Final(cfg, s0, run).trails[tx].audits
    ensures RestsOnReading(cfg, s0, run, tx, v)
  {
    RunTruth(cfg, s0, run);
    RunFounded(cfg, s0, run);
    var s := Final(cfg, s0, run);
    assert TrailTrue(tx, s.trails[tx]);
    hide Founding, FollowsRule, Truthful, AttemptsFounded, Ruled, Legal, Final, CutoffFrom;
    assert FoundedBySome(cfg, s0, run, tx, v.basis);
    var a :| Founded(cfg, s0, run, a, tx, v.basis);
    var i, j, age :| Founding(cfg, s0, run, a, i, j, age, tx, v.basis);
    FoundingReads(cfg, s0, run, a, i, j, age, tx, v.basis);
    VerdictMeans(cfg, age, v);
    assert Rests(cfg, s0, run, a, i, j, age, tx, v);
  }

  lemma FoundingReads(cfg: Settings, s0: State, run: seq<Event>, a: AttemptId, i: int, j: int, age: int, tx: TxId,
      b: Basis)
    requires Founding(cfg, s0, run, a, i, j, age, tx, b)
    ensures CutoffFrom(cfg, age, b)
  {
  }

  lemma VerdictMeans(cfg: Settings, age: int, v: Verdict)
    requires CutoffFrom(cfg, age, v.basis) && Ruled(v)
    ensures FollowsRule(cfg, age, v)
  {
    if v.basis.ByDocument? {
      DocumentApproval(v.basis.check, age, cfg.minFaceMatch, v.basis.at);
    } else {
      FaceRuleExact(cfg.decision, age, v.basis.result, v.status);
      assert v.basis.cfg == FaceConfig(cfg.decision, age);
    }
  }

  /** The audit row is the last verdict that was audited, under the tenant of the transaction, and it
      rests on a reading. There is one as soon as anything was audited. */
  lemma AuditRowExact(cfg: Settings, s0: State, run: seq<Event>, tx: TxId)
    requires FromStart(s0) && Legal(cfg, s0, run) && tx in Final(cfg, s0, run).trails
    ensures var s, t := Final(cfg, s0, run), Final(cfg, s0, run).trails[tx];
            && (tx in s.audit <==> t.audits != [])
            && (tx in s.audit ==>
                  && s.audit[tx] == Row(t.tenant, t.audits[|t.audits| - 1])
                  && RestsOnReading(cfg, s0, run, tx, s.audit[tx].verdict))
  {
    RunTruth(cfg, s0, run);
    var s := Final(cfg, s0, run);
    assert RowsTrue(s, tx);
    hide Truthful, RestsOnReading, Legal, Final;
    if tx in s.audit { VerdictExact(cfg, s0, run, tx, s.audit[tx].verdict); }
  }

  // ----- approvals -----

  /** The bar for a tenant that requires that age, cleared by a face alone. */
  predicate FaceClears(cfg: Settings, age: int, r: AgeResult) {
    && r.livenessScore >= cfg.decision.livenessThreshold
    && r.estimatedAge >= (if age != 0 then age as real else cfg.decision.cutoffAge) + cfg.decision.margin
  }

  predicate Clears(cfg: Settings, age: int, b: Basis) {
    match b
    case ByFace(r, _) => FaceClears(cfg, age, r)
    case ByDocument(c, at, _, _) => DocumentPasses(c, age, cfg.minFaceMatch, at)
  }

  /** The face was live, and closer to the bar of a tenant that requires that age than the margin. */
  predicate GreyFace(cfg: Settings, age: int, b: Basis) {
    && b.ByFace? && b.result.livenessScore >= cfg.decision.livenessThreshold
    && var cutoff := if age != 0 then age as real else cfg.decision.cutoffAge;
       cutoff - cfg.decision.margin <= b.result.estimatedAge < cutoff + cfg.decision.margin
  }

  /** One attempt read a required age of the tenant, which is the cutoff of the basis, and was given
      the measurement, which clears it. */
  ghost predicate ClearsWhatWasRead(cfg: Settings, s0: State, run: seq<Event>, tx: TxId, b: Basis) {
    exists a, i, j, age :: Founding(cfg, s0, run, a, i, j, age, tx, b) && Clears(cfg, age, b)
  }

  /** One attempt read a required age of the tenant and was given a face in the grey zone around it. */
  ghost predicate GreyWhenRead(cfg: Settings, s0: State, run: seq<Event>, tx: TxId, b: Basis) {
    exists a, i, j, age :: Founding(cfg, s0, run, a, i, j, age, tx, b) && GreyFace(cfg, age, b)
  }

  /** A grey-zone face of the transaction was recorded, under a cutoff of its own. */
  ghost predicate GreyBefore(cfg: Settings, s0: State, run: seq<Event>, tx: TxId, t: Trail) {
    exists g :: g in t.records && GreyWhenRead(cfg, s0, run, tx, g.basis)
  }

  /** Approval is sound over every legal run. Behind an approved row there are two steps of one
      attempt: it read an age that the tenant of the transaction required, and was given a measurement
      that clears this age, by the face alone, or by a document, then read after the answer, and after
      a live grey-zone face of the same transaction. */
  lemma ApprovalSound(cfg: Settings, s0: State, run: seq<Event>, tx: TxId)
    requires FromStart(s0) && Legal(cfg, s0, run)
    requires tx in Final(cfg, s0, run).audit && Final(cfg, s0, run).audit[tx].verdict.status == Aprovado
    ensures var s := Final(cfg, s0, run);
            var b := s.audit[tx].verdict.basis;
            && tx in s.trails && s.trails[tx].tenant == s.audit[tx].tenant
            && ClearsWhatWasRead(cfg, s0, run, tx, b)
            && (b.ByDocument? ==> GreyBefore(cfg, s0, run, tx, s.trails[tx]))
  {
    RunTruth(cfg, s0, run);
    RunEscalated(cfg, s0, run);
    var s := Final(cfg, s0, run);
    ApprovedRow(s, tx);
    var v := s.audit[tx].verdict;
    VerdictExact(cfg, s0, run, tx, v);
    hide RestsOnReading, ClearsWhatWasRead, Truthful, Escalated, GreyBefore, Legal, Final;
    ApprovalClears(cfg, s0, run, tx, v);
    if v.basis.ByDocument? { DocumentAfterGrey(cfg, s0, run, tx, v); }
  }

  lemma ApprovalClears(cfg: Settings, s0: State, run: seq<Event>, tx: TxId, v: Verdict)
    requires RestsOnReading(cfg, s0, run, tx, v) && v.status == Aprovado
    ensures ClearsWhatWasRead(cfg, s0, run, tx, v.basis)
  {
    hide Founding, DocumentPasses;
    var a, i, j, age :| Rests(cfg, s0, run, a, i, j, age, tx, v);
    assert Clears(cfg, age, v.basis);
  }

  lemma GreyReads(cfg: Settings, s0: State, run: seq<Event>, tx: TxId, v: Verdict)
    requires RestsOnReading(cfg, s0, run, tx, v) && v.status == DocumentoRequerido
    ensures GreyWhenRead(cfg, s0, run, tx, v.basis)
  {
    hide Founding, DocumentPasses;
    var a, i, j, age :| Rests(cfg, s0, run, a, i, j, age, tx, v);
    assert GreyFace(cfg, age, v.basis);
  }

  lemma ApprovedRow(s: State, tx: TxId)
    requires Truthful(s) && tx in s.audit
    ensures tx in s.trails && s.trails[tx].tenant == s.audit[tx].tenant
    ensures s.audit[tx].verdict in s.trails[tx].audits
  {
    assert RowsTrue(s, tx);
  }

  lemma DocumentAfterGrey(cfg: Settings, s0: State, run: seq<Event>, tx: TxId, v: Verdict)
    requires FromStart(s0) && Legal(cfg, s0, run) && tx in Final(cfg, s0, run).trails
    requires v in Final(cfg, s0, run).trails[tx].audits && v.basis.ByDocument?
    requires Escalated(Final(cfg, s0, run)) && Truthful(Final(cfg, s0, run))
    ensures GreyBefore(cfg, s0, run, tx, Final(cfg, s0, run).trails[tx])
  {
    hide RestsOnReading, GreyWhenRead, Legal, Final;
    var g := GreyRecord(Final(cfg, s0, run), tx, v);
    VerdictExact(cfg, s0, run, tx, g);
    GreyReads(cfg, s0, run, tx, g);
  }

  lemma GreyRecord(s: State, tx: TxId, v: Verdict) returns (g: Verdict)
    requires Escalated(s) && Truthful(s) && tx in s.trails && v in s.trails[tx].audits && v.basis.ByDocument?
    ensures g in s.trails[tx].records && g in s.trails[tx].audits && g.status == DocumentoRequerido
  {
    assert WasGrey(s.trails[tx]) && TrailTrue(tx, s.trails[tx]);
    g :| g in s.trails[tx].records && g.status == DocumentoRequerido;
  }

  lemma GreyMeans(v: Verdict)
    requires Ruled(v) && v.status == DocumentoRequerido
    ensures v.basis.ByFace?
  {
  }
}
