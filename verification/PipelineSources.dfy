/** Where the numbers behind a verdict come from: every threshold was read from the tenant of the
    transaction, and every measurement is an answer of the provider or the verifier, by an event of
    the run, in the phase that used it. In every legal run. */
module PipelineSources {
  import opened Wrappers
  import opened Decision
  import opened Pipeline
  import opened PipelineTheorems
  import opened PipelineAnyRun

  // ----- events of a run -----

  /** Event i is step w of a processor of that phase of tx, for the tenant of tx. */
  predicate WorkAt(cfg: Settings, s0: State, run: seq<Event>, i: int, tx: TxId, phase: Phase, w: WorkEvent) {
    && 0 <= i < |run| && Legal(cfg, s0, run[..i]) && run[i].Work? && run[i].w == w
    && var s := Final(cfg, s0, run[..i]);
    && At(s, run[i].a) && s.attempts[run[i].a].job == Job(tx, phase)
    && s.jobs[Job(tx, phase)] == s.trails[tx].tenant
  }

  /** Event i reads the required age of the tenant of tx. */
  predicate TenantRead(cfg: Settings, s0: State, run: seq<Event>, i: int, tx: TxId, phase: Phase, age: int) {
    && WorkAt(cfg, s0, run, i, tx, phase, ReadTenant)
    && var s := Final(cfg, s0, run[..i]);
    && s.trails[tx].tenant in s.requiredAge && s.requiredAge[s.trails[tx].tenant] == age
  }

  /** What a verdict was measured on; the clock matters for the age on a document. */
  datatype Measurement = OnFace(result: AgeResult) | OnDocument(check: DocumentCheck, at: int)

  predicate MeasuredAt(cfg: Settings, s0: State, run: seq<Event>, i: int, tx: TxId, m: Measurement) {
    match m
    case OnFace(result) => WorkAt(cfg, s0, run, i, tx, FacePhase, Analyze(result))
    case OnDocument(check, at) =>
      WorkAt(cfg, s0, run, i, tx, DocumentPhase, VerifyDocument(check)) && Final(cfg, s0, run[..i]).now == at
  }

  // ----- bases of verdicts -----

  function PhaseOf(b: Basis): Phase {
    if b.ByFace? then FacePhase else DocumentPhase
  }

  function MeasurementOf(b: Basis): Measurement {
    match b
    case ByFace(result, _) => OnFace(result)
    case ByDocument(check, at, _, _) => OnDocument(check, at)
  }

  /** The thresholds of a basis are those of a tenant that requires that age. */
  predicate CutoffFrom(cfg: Settings, age: int, b: Basis) {
    match b
    case ByFace(_, c) => FaceThresholds(cfg.decision, age, c)
    case ByDocument(_, _, cutoff, minFace) => cutoff == age as real && minFace == cfg.minFaceMatch
  }

  /** The thresholds were read by attempt a, in the phase that used them. */
  ghost predicate KnownBy(cfg: Settings, s0: State, run: seq<Event>, a: AttemptId, tx: TxId, b: Basis) {
    exists i, age :: TenantRead(cfg, s0, run, i, tx, PhaseOf(b), age) && run[i].a == a && CutoffFrom(cfg, age, b)
  }

  /** Attempt a was given the measurement. */
  ghost predicate MeasuredBy(cfg: Settings, s0: State, run: seq<Event>, a: AttemptId, tx: TxId, m: Measurement) {
    exists i :: MeasuredAt(cfg, s0, run, i, tx, m) && run[i].a == a
  }

  lemma LaterKnows(cfg: Settings, s0: State, run: seq<Event>, a: AttemptId, tx: TxId, b: Basis, c: Basis)
    requires run != [] && KnownBy(cfg, s0, Front(run), a, tx, b) && SameThresholds(b, c)
    ensures KnownBy(cfg, s0, run, a, tx, c)
  {
    hide Legal, Final, FaceConfig, DocumentCutoff;
    var i, age :| TenantRead(cfg, s0, Front(run), i, tx, PhaseOf(b), age) && Front(run)[i].a == a
        && CutoffFrom(cfg, age, b);
    assert Front(run)[..i] == run[..i];
    assert TenantRead(cfg, s0, run, i, tx, PhaseOf(c), age) && CutoffFrom(cfg, age, c);
  }

  lemma LaterMeasured(cfg: Settings, s0: State, run: seq<Event>, a: AttemptId, tx: TxId, m: Measurement)
    requires run != [] && MeasuredBy(cfg, s0, Front(run), a, tx, m)
    ensures MeasuredBy(cfg, s0, run, a, tx, m)
  {
    hide Legal, Final;
    var i :| MeasuredAt(cfg, s0, Front(run), i, tx, m) && Front(run)[i].a == a;
    assert Front(run)[..i] == run[..i];
    assert MeasuredAt(cfg, s0, run, i, tx, m);
  }

  // ----- what an attempt carries -----

  /** The thresholds an attempt carries. */
  function Carried(pc: Pc): Option<Basis> {
    match pc
    case Analyzing(c) => Some(ByFace(AgeResult(0.0, 0.0), c))
    case Issuing(v) => Some(v.basis)
    case Auditing(v, _) => Some(v.basis)
    case Recording(v, _) => Some(v.basis)
    case Dispatching(v, _, _) => Some(v.basis)
    case _ => None
  }

  predicate SameThresholds(b: Basis, c: Basis) {
    (b.ByFace? && c.ByFace? && b.cfg == c.cfg) || b == c
  }

  /** A step carries thresholds on, or has just read them. */
  lemma CarriedStep(cfg: Settings, s: State, a: AttemptId, w: WorkEvent)
    requires WorkEnabled(cfg, s, a, w)
    ensures var t := WorkApply(cfg, s, a, w);
            a in t.attempts && (Carried(t.attempts[a].pc).Some? ==>
              && a in s.attempts
              && if w.ReadTenant? then
                   CutoffFrom(cfg, s.requiredAge[s.jobs[s.attempts[a].job]], Carried(t.attempts[a].pc).value)
                 else Carried(s.attempts[a].pc).Some?
                      && SameThresholds(Carried(s.attempts[a].pc).value, Carried(t.attempts[a].pc).value))
  {
    hide DecideDocument, DecideVerification, AgeFromDocument;
    if w.ReadTenant? {
      assert WorkApply(cfg, s, a, w) == DoReadTenant(cfg, s, a);
    } else if w.Analyze? {
      assert WorkApply(cfg, s, a, w) == DoAnalyze(s, a, w.result);
    } else if WritesTrail(w) {
      WriteCarries(cfg, s, a, w);
    } else {
      CarriesNothing(cfg, s, a, w);
    }
  }

  lemma WriteCarries(cfg: Settings, s: State, a: AttemptId, w: WorkEvent)
    requires WorkEnabled(cfg, s, a, w) && WritesTrail(w)
    ensures var t := WorkApply(cfg, s, a, w);
            a in t.attempts && Carried(s.attempts[a].pc).Some?
            && (Carried(t.attempts[a].pc).Some? ==> Carried(t.attempts[a].pc) == Carried(s.attempts[a].pc))
  {
  }

  lemma CarriesNothing(cfg: Settings, s: State, a: AttemptId, w: WorkEvent)
    requires WorkEnabled(cfg, s, a, w) && !WritesTrail(w) && !w.ReadTenant? && !w.Analyze?
    ensures a in WorkApply(cfg, s, a, w).attempts && Carried(WorkApply(cfg, s, a, w).attempts[a].pc).None?
  {
  }

  /** Every new audit row carries on the thresholds of its writer. */
  lemma AuditCarries(cfg: Settings, s: State, a: AttemptId, w: WorkEvent, tx: TxId, k: nat)
    requires WorkEnabled(cfg, s, a, w) && tx in s.trails
    requires tx in WorkApply(cfg, s, a, w).trails && k < |WorkApply(cfg, s, a, w).trails[tx].audits|
    ensures (k < |s.trails[tx].audits| && WorkApply(cfg, s, a, w).trails[tx].audits[k] == s.trails[tx].audits[k])
            || (a in s.attempts && s.attempts[a].job.tx == tx && s.attempts[a].pc.Auditing?
                && s.attempts[a].pc.v == WorkApply(cfg, s, a, w).trails[tx].audits[k])
  {
    hide FaceConfig, DocumentCutoff, DecideDocument, DecideVerification, AgeFromDocument;
    if !w.WriteAudit? { WorkAuditsMove(cfg, s, a, w, tx); }
  }

  /** The measurement an attempt carries. */
  function Holds(pc: Pc): Option<Measurement> {
    match pc
    case Deciding(check, at) => Some(OnDocument(check, at))
    case Issuing(v) => Some(MeasurementOf(v.basis))
    case Auditing(v, _) => Some(MeasurementOf(v.basis))
    case Recording(v, _) => Some(MeasurementOf(v.basis))
    case Dispatching(v, _, _) => Some(MeasurementOf(v.basis))
    case _ => None
  }

  /** A step carries a measurement on, or has just made it. */
  lemma MeasureStep(cfg: Settings, s: State, a: AttemptId, w: WorkEvent)
    requires WorkEnabled(cfg, s, a, w)
    ensures var t := WorkApply(cfg, s, a, w);
            a in t.attempts && (Holds(t.attempts[a].pc).Some? ==>
              && a in s.attempts
              && match w
                 case Analyze(result) => Holds(t.attempts[a].pc).value == OnFace(result)
                 case VerifyDocument(check) => Holds(t.attempts[a].pc).value == OnDocument(check, s.now)
                 case _ => Holds(t.attempts[a].pc) == Holds(s.attempts[a].pc))
  {
    hide FaceConfig, DocumentCutoff, DecideDocument, DecideVerification, AgeFromDocument, Storable;
    if WritesTrail(w) {
      match w
      case IssueToken(token) => assert WorkApply(cfg, s, a, w) == DoIssue(s, a, token);
      case WriteAudit => assert WorkApply(cfg, s, a, w) == DoAudit(s, a);
      case WriteRecord => assert WorkApply(cfg, s, a, w) == DoRecord(s, a);
      case Send(ok) => assert WorkApply(cfg, s, a, w) == DoSend(cfg, s, a, ok);
      case _ =>
    } else {
      MeasureMoves(cfg, s, a, w);
    }
  }

  lemma MeasureMoves(cfg: Settings, s: State, a: AttemptId, w: WorkEvent)
    requires WorkEnabled(cfg, s, a, w) && !WritesTrail(w)
    ensures var t := WorkApply(cfg, s, a, w);
            a in t.attempts && (Holds(t.attempts[a].pc).Some? ==>
              && a in s.attempts
              && match w
                 case Analyze(result) => Holds(t.attempts[a].pc).value == OnFace(result)
                 case VerifyDocument(check) => Holds(t.attempts[a].pc).value == OnDocument(check, s.now)
                 case _ => Holds(t.attempts[a].pc) == Holds(s.attempts[a].pc))
  {
    hide FaceConfig, DocumentCutoff, DecideDocument, DecideVerification, AgeFromDocument, Found;
  }

  // ----- whole runs -----

  ghost predicate AttemptsKnow(cfg: Settings, s0: State, run: seq<Event>, attempts: map<AttemptId, Attempt>) {
    forall a | a in attempts && Carried(attempts[a].pc).Some? ::
      KnownBy(cfg, s0, run, a, attempts[a].job.tx, Carried(attempts[a].pc).value)
  }

  ghost predicate AttemptsMeasured(cfg: Settings, s0: State, run: seq<Event>, attempts: map<AttemptId, Attempt>) {
    forall a | a in attempts && Holds(attempts[a].pc).Some? ::
      MeasuredBy(cfg, s0, run, a, attempts[a].job.tx, Holds(attempts[a].pc).value)
  }

  ghost predicate Sourced(cfg: Settings, s0: State, run: seq<Event>)
    requires Legal(cfg, s0, run)
  {
    var s := Final(cfg, s0, run);
    AttemptsKnow(cfg, s0, run, s.attempts) && AttemptsMeasured(cfg, s0, run, s.attempts)
  }

  /** Every threshold and every measurement that an attempt carries comes from a step of its own: on
      its transaction, for the tenant of that, in its phase. */
  lemma {:induction false} AllSourced(cfg: Settings, s0: State, run: seq<Event>)
    requires FromStart(s0) && Legal(cfg, s0, run)
    ensures Sourced(cfg, s0, run)
    decreases |run|
  {
    if run != [] {
      AllSourced(cfg, s0, Front(run));
      RunRooted(cfg, s0, Front(run));
      hide Rooted;
      match run[|run| - 1]
      case Work(a, w) => WorkSourced(cfg, s0, run);
      case _ => QuietSourced(cfg, s0, run);
    }
  }

  lemma QuietSourced(cfg: Settings, s0: State, run: seq<Event>)
    requires run != [] && Legal(cfg, s0, run) && Sourced(cfg, s0, Front(run)) && !run[|run| - 1].Work?
    ensures Sourced(cfg, s0, run)
  {
    var s, t, e := Final(cfg, s0, Front(run)), Final(cfg, s0, run), run[|run| - 1];
    QuietAttempts(cfg, s, e);
    hide KnownBy, MeasuredBy, Enabled, Apply, Carried, Holds;
    forall a | a in t.attempts && Carried(t.attempts[a].pc).Some?
      ensures KnownBy(cfg, s0, run, a, t.attempts[a].job.tx, Carried(t.attempts[a].pc).value)
    {
      var b := Carried(t.attempts[a].pc).value;
      LaterKnows(cfg, s0, run, a, t.attempts[a].job.tx, b, b);
    }
    forall a | a in t.attempts && Holds(t.attempts[a].pc).Some?
      ensures MeasuredBy(cfg, s0, run, a, t.attempts[a].job.tx, Holds(t.attempts[a].pc).value)
    {
      LaterMeasured(cfg, s0, run, a, t.attempts[a].job.tx, Holds(t.attempts[a].pc).value);
    }
  }

  lemma QuietAttempts(cfg: Settings, s: State, e: Event)
    requires Enabled(cfg, s, e) && !e.Work?
    ensures Apply(cfg, s, e).attempts == s.attempts
    ensures var t := Apply(cfg, s, e);
            forall tx | tx in t.trails && t.trails[tx].audits != [] :: tx in s.trails
                && t.trails[tx].audits == s.trails[tx].audits
  {
    if e.Http? {
      hide HttpApply, HttpEnabled;
      HttpShape(cfg, s, e.r, e.h);
      var t := HttpApply(cfg, s, e.r, e.h);
      forall tx | tx in t.trails && t.trails[tx].audits != []
        ensures tx in s.trails && t.trails[tx].audits == s.trails[tx].audits {
        HttpNewTrail(cfg, s, e.r, e.h, tx);
      }
    }
  }

  lemma HttpNewTrail(cfg: Settings, s: State, r: RequestId, h: HttpEvent, tx: TxId)
    requires HttpEnabled(cfg, s, r, h) && tx in HttpApply(cfg, s, r, h).trails
    ensures var t := HttpApply(cfg, s, r, h);
            if tx in s.trails then t.trails[tx].audits == s.trails[tx].audits else t.trails[tx].audits == []
  {
  }

  /** The last event of the run, as an event of its transaction. */
  lemma LastWork(cfg: Settings, s0: State, run: seq<Event>)
    requires run != [] && Legal(cfg, s0, run) && Rooted(Final(cfg, s0, Front(run)))
    requires run[|run| - 1].Work? && !run[|run| - 1].w.Start?
    ensures var s, e := Final(cfg, s0, Front(run)), run[|run| - 1];
            && At(s, e.a) && PhaseFits(s.attempts[e.a])
            && WorkAt(cfg, s0, run, |run| - 1, s.attempts[e.a].job.tx, s.attempts[e.a].job.phase, e.w)
            && run[..|run| - 1] == Front(run)
  {
    var s, e := Final(cfg, s0, Front(run)), run[|run| - 1];
    assert AttemptRooted(s, s.attempts[e.a]);
    assert JobRooted(s, s.attempts[e.a].job);
  }

  lemma WorkSourced(cfg: Settings, s0: State, run: seq<Event>)
    requires run != [] && Legal(cfg, s0, run) && Sourced(cfg, s0, Front(run)) && run[|run| - 1].Work?
    requires Rooted(Final(cfg, s0, Front(run)))
    ensures Sourced(cfg, s0, run)
  {
    AllKnow(cfg, s0, run);
    AllMeasured(cfg, s0, run);
    hide AttemptsKnow, AttemptsMeasured, Rooted, Legal, Final;
  }

  lemma AllKnow(cfg: Settings, s0: State, run: seq<Event>)
    requires run != [] && Legal(cfg, s0, run) && Sourced(cfg, s0, Front(run)) && run[|run| - 1].Work?
    requires Rooted(Final(cfg, s0, Front(run)))
    ensures AttemptsKnow(cfg, s0, run, Final(cfg, s0, run).attempts)
  {
    var s, t, e := Final(cfg, s0, Front(run)), Final(cfg, s0, run), run[|run| - 1];
    OneAttemptMoves(cfg, s, e.a, e.w);
    MoverKnows(cfg, s0, run);
    hide KnownBy, MeasuredBy, Rooted, Carried, Holds, WorkApply, WorkEnabled;
    forall b | b in t.attempts && Carried(t.attempts[b].pc).Some?
      ensures KnownBy(cfg, s0, run, b, t.attempts[b].job.tx, Carried(t.attempts[b].pc).value)
    {
      if b != e.a {
        var c := Carried(t.attempts[b].pc).value;
        LaterKnows(cfg, s0, run, b, t.attempts[b].job.tx, c, c);
      }
    }
  }

  lemma AllMeasured(cfg: Settings, s0: State, run: seq<Event>)
    requires run != [] && Legal(cfg, s0, run) && Sourced(cfg, s0, Front(run)) && run[|run| - 1].Work?
    requires Rooted(Final(cfg, s0, Front(run)))
    ensures AttemptsMeasured(cfg, s0, run, Final(cfg, s0, run).attempts)
  {
    var s, t, e := Final(cfg, s0, Front(run)), Final(cfg, s0, run), run[|run| - 1];
    OneAttemptMoves(cfg, s, e.a, e.w);
    MoverMeasured(cfg, s0, run);
    hide KnownBy, MeasuredBy, Rooted, Carried, Holds, WorkApply, WorkEnabled;
    forall b | b in t.attempts && Holds(t.attempts[b].pc).Some?
      ensures MeasuredBy(cfg, s0, run, b, t.attempts[b].job.tx, Holds(t.attempts[b].pc).value)
    {
      if b != e.a { LaterMeasured(cfg, s0, run, b, t.attempts[b].job.tx, Holds(t.attempts[b].pc).value); }
    }
  }

  lemma MoverKnows(cfg: Settings, s0: State, run: seq<Event>)
    requires run != [] && Legal(cfg, s0, run) && Sourced(cfg, s0, Front(run)) && run[|run| - 1].Work?
    requires Rooted(Final(cfg, s0, Front(run)))
    ensures var t, a := Final(cfg, s0, run), run[|run| - 1].a;
            a in t.attempts && (Carried(t.attempts[a].pc).Some? ==>
              KnownBy(cfg, s0, run, a, t.attempts[a].job.tx, Carried(t.attempts[a].pc).value))
  {
    var s, t, e := Final(cfg, s0, Front(run)), Final(cfg, s0, run), run[|run| - 1];
    OneAttemptMoves(cfg, s, e.a, e.w);
    CarriedStep(cfg, s, e.a, e.w);
    if Carried(t.attempts[e.a].pc).Some? {
      var b := Carried(t.attempts[e.a].pc).value;
      if e.w.ReadTenant? {
        LastWork(cfg, s0, run);
        ReadFits(cfg, s, e.a);
        var tx := s.attempts[e.a].job.tx;
        assert TenantRead(cfg, s0, run, |run| - 1, tx, PhaseOf(b), s.requiredAge[s.trails[tx].tenant]);
      } else {
        LaterKnows(cfg, s0, run, e.a, t.attempts[e.a].job.tx, Carried(s.attempts[e.a].pc).value, b);
      }
    }
  }

  lemma ReadFits(cfg: Settings, s: State, a: AttemptId)
    requires WorkEnabled(cfg, s, a, ReadTenant) && PhaseFits(s.attempts[a])
    ensures a in WorkApply(cfg, s, a, ReadTenant).attempts
    ensures var b := Carried(WorkApply(cfg, s, a, ReadTenant).attempts[a].pc);
            b.Some? && PhaseOf(b.value) == s.attempts[a].job.phase
  {
    hide FaceConfig, DecideDocument, AgeFromDocument;
  }

  lemma MoverMeasured(cfg: Settings, s0: State, run: seq<Event>)
    requires run != [] && Legal(cfg, s0, run) && Sourced(cfg, s0, Front(run)) && run[|run| - 1].Work?
    requires Rooted(Final(cfg, s0, Front(run)))
    ensures var t, a := Final(cfg, s0, run), run[|run| - 1].a;
            a in t.attempts && (Holds(t.attempts[a].pc).Some? ==>
              MeasuredBy(cfg, s0, run, a, t.attempts[a].job.tx, Holds(t.attempts[a].pc).value))
  {
    var s, t, e := Final(cfg, s0, Front(run)), Final(cfg, s0, run), run[|run| - 1];
    OneAttemptMoves(cfg, s, e.a, e.w);
    MeasureStep(cfg, s, e.a, e.w);
    hide WorkApply, WorkEnabled, Rooted, MeasuredBy, KnownBy, Holds, Carried, AttemptsKnow;
    if Holds(t.attempts[e.a].pc).Some? {
      if e.w.Analyze? || e.w.VerifyDocument? {
        JustMeasured(cfg, s0, run);
      } else {
        LaterMeasured(cfg, s0, run, e.a, t.attempts[e.a].job.tx, Holds(t.attempts[e.a].pc).value);
      }
    }
  }

  /** What the last event of the run measured, if it is an answer. */
  function Answered(s: State, e: Event): Measurement
    requires e.Work? && (e.w.Analyze? || e.w.VerifyDocument?)
  {
    if e.w.Analyze? then OnFace(e.w.result) else OnDocument(e.w.check, s.now)
  }

  /** The last event of the run is an answer of the provider or the verifier. */
  lemma MeasuredLast(cfg: Settings, s0: State, run: seq<Event>)
    requires run != [] && Legal(cfg, s0, run) && Rooted(Final(cfg, s0, Front(run))) && run[|run| - 1].Work?
    requires run[|run| - 1].w.Analyze? || run[|run| - 1].w.VerifyDocument?
    ensures var s, e := Final(cfg, s0, Front(run)), run[|run| - 1];
            e.a in s.attempts && MeasuredAt(cfg, s0, run, |run| - 1, s.attempts[e.a].job.tx, Answered(s, e))
  {
    LastWork(cfg, s0, run);
    hide Rooted, Apply;
  }

  lemma JustMeasured(cfg: Settings, s0: State, run: seq<Event>)
    requires run != [] && Legal(cfg, s0, run) && Rooted(Final(cfg, s0, Front(run))) && run[|run| - 1].Work?
    requires run[|run| - 1].w.Analyze? || run[|run| - 1].w.VerifyDocument?
    ensures var s, e := Final(cfg, s0, Front(run)), run[|run| - 1];
            e.a in s.attempts && MeasuredBy(cfg, s0, run, e.a, s.attempts[e.a].job.tx, Answered(s, e))
  {
    MeasuredLast(cfg, s0, run);
    hide Rooted, Apply, MeasuredAt;
  }

  // ----- what a verdict rests on -----

  /** Attempt a read that age at i and was given the measurement at j, and both are behind the
      verdict: a face check reads before it asks, a document check after the answer. */
  ghost predicate Founding(cfg: Settings, s0: State, run: seq<Event>, a: AttemptId, i: int, j: int, age: int, tx: TxId,
      b: Basis)
  {
    && TenantRead(cfg, s0, run, i, tx, PhaseOf(b), age) && MeasuredAt(cfg, s0, run, j, tx, MeasurementOf(b))
    && run[i].a == a && run[j].a == a && CutoffFrom(cfg, age, b) && (if b.ByFace? then i < j else j < i)
  }

  ghost predicate Founded(cfg: Settings, s0: State, run: seq<Event>, a: AttemptId, tx: TxId, b: Basis) {
    exists i, j, age :: Founding(cfg, s0, run, a, i, j, age, tx, b)
  }

  /** By some attempt. */
  ghost predicate FoundedBySome(cfg: Settings, s0: State, run: seq<Event>, tx: TxId, b: Basis) {
    exists a :: Founded(cfg, s0, run, a, tx, b)
  }

  lemma LaterFoundedBySome(cfg: Settings, s0: State, run: seq<Event>, tx: TxId, b: Basis)
    requires run != [] && FoundedBySome(cfg, s0, Front(run), tx, b)
    ensures FoundedBySome(cfg, s0, run, tx, b)
  {
    hide Founded;
    var a :| Founded(cfg, s0, Front(run), a, tx, b);
    LaterFounded(cfg, s0, run, a, tx, b);
  }

  lemma LaterFounded(cfg: Settings, s0: State, run: seq<Event>, a: AttemptId, tx: TxId, b: Basis)
    requires run != [] && Founded(cfg, s0, Front(run), a, tx, b)
    ensures Founded(cfg, s0, run, a, tx, b)
  {
    hide Legal, Final, CutoffFrom;
    var i, j, age :| Founding(cfg, s0, Front(run), a, i, j, age, tx, b);
    assert Front(run)[..i] == run[..i] && Front(run)[..j] == run[..j];
    assert Founding(cfg, s0, run, a, i, j, age, tx, b);
  }

  function VerdictAt(pc: Pc): Option<Verdict> {
    match pc
    case Issuing(v) => Some(v)
    case Auditing(v, _) => Some(v)
    case Recording(v, _) => Some(v)
    case Dispatching(v, _, _) => Some(v)
    case _ => None
  }

  ghost predicate AttemptsFounded(cfg: Settings, s0: State, run: seq<Event>, attempts: map<AttemptId, Attempt>) {
    forall a | a in attempts && VerdictAt(attempts[a].pc).Some? ::
      Founded(cfg, s0, run, a, attempts[a].job.tx, VerdictAt(attempts[a].pc).value.basis)
  }

  ghost predicate AuditsFounded(cfg: Settings, s0: State, run: seq<Event>, trails: map<TxId, Trail>) {
    forall tx, v | tx in trails && v in trails[tx].audits :: FoundedBySome(cfg, s0, run, tx, v.basis)
  }

  ghost predicate AllFounded(cfg: Settings, s0: State, run: seq<Event>)
    requires Legal(cfg, s0, run)
  {
    AttemptsFounded(cfg, s0, run, Final(cfg, s0, run).attempts)
        && AuditsFounded(cfg, s0, run, Final(cfg, s0, run).trails)
  }

  /** A step carries a verdict on, or has just reached it. */
  lemma VerdictStep(cfg: Settings, s: State, a: AttemptId, w: WorkEvent)
    requires WorkEnabled(cfg, s, a, w)
    ensures var t := WorkApply(cfg, s, a, w);
            a in t.attempts && (VerdictAt(t.attempts[a].pc).Some? ==>
              && a in s.attempts
              && (VerdictAt(t.attempts[a].pc) == VerdictAt(s.attempts[a].pc) || w.Analyze? || w.ReadTenant?))
  {
    hide FaceConfig, DocumentCutoff, DecideDocument, DecideVerification, AgeFromDocument, Storable;
    if WritesTrail(w) {
      WriteVerdict(cfg, s, a, w);
    } else if !w.Analyze? && !w.ReadTenant? {
      CarriesNothing(cfg, s, a, w);
    } else {
      OneAttemptMoves(cfg, s, a, w);
    }
    hide WorkApply, WorkEnabled;
  }

  lemma WriteVerdict(cfg: Settings, s: State, a: AttemptId, w: WorkEvent)
    requires WorkEnabled(cfg, s, a, w) && WritesTrail(w)
    ensures var t := WorkApply(cfg, s, a, w);
            a in t.attempts && (VerdictAt(t.attempts[a].pc).Some?
                ==> VerdictAt(t.attempts[a].pc) == VerdictAt(s.attempts[a].pc))
  {
    hide Storable;
    match w
    case IssueToken(token) => assert WorkApply(cfg, s, a, w) == DoIssue(s, a, token);
    case WriteAudit => assert WorkApply(cfg, s, a, w) == DoAudit(s, a);
    case WriteRecord => assert WorkApply(cfg, s, a, w) == DoRecord(s, a);
    case Send(ok) => assert WorkApply(cfg, s, a, w) == DoSend(cfg, s, a, ok);
    case _ =>
  }

  /** The face verdict: read before, and answered now. */
  lemma AnswerFounds(cfg: Settings, s0: State, run: seq<Event>)
    requires run != [] && Legal(cfg, s0, run) && Sourced(cfg, s0, Front(run)) && Rooted(Final(cfg, s0, Front(run)))
    requires run[|run| - 1].Work? && run[|run| - 1].w.Analyze?
    ensures var t, a := Final(cfg, s0, run), run[|run| - 1].a;
            && a in t.attempts && VerdictAt(t.attempts[a].pc).Some?
            && Founded(cfg, s0, run, a, t.attempts[a].job.tx, VerdictAt(t.attempts[a].pc).value.basis)
  {
    var s, e := Final(cfg, s0, Front(run)), run[|run| - 1];
    MeasuredLast(cfg, s0, run);
    AnswerIs(cfg, s, e.a, e.w.result);
    CarrierKnows(cfg, s0, Front(run), e.a);
    hide Enabled, Apply, Rooted, Sourced, MeasuredAt, KnownBy, Founded;
    var b := ByFace(e.w.result, s.attempts[e.a].pc.cfg);
    FoundByAnswer(cfg, s0, run, e.a, s.attempts[e.a].job.tx, Carried(s.attempts[e.a].pc).value, b);
  }

  lemma CarrierKnows(cfg: Settings, s0: State, run: seq<Event>, a: AttemptId)
    requires Legal(cfg, s0, run) && Sourced(cfg, s0, run) && a in Final(cfg, s0, run).attempts
    ensures var x := Final(cfg, s0, run).attempts[a];
            && (Carried(x.pc).Some? ==> KnownBy(cfg, s0, run, a, x.job.tx, Carried(x.pc).value))
            && (Holds(x.pc).Some? ==> MeasuredBy(cfg, s0, run, a, x.job.tx, Holds(x.pc).value))
  {
    hide KnownBy, MeasuredBy, Legal, Final, Carried, Holds;
  }

  lemma FoundByAnswer(cfg: Settings, s0: State, run: seq<Event>, a: AttemptId, tx: TxId, known: Basis, b: Basis)
    requires run != [] && KnownBy(cfg, s0, Front(run), a, tx, known) && SameThresholds(known, b) && b.ByFace?
    requires run[|run| - 1].Work? && run[|run| - 1].a == a && MeasuredAt(cfg, s0, run, |run| - 1, tx, MeasurementOf(b))
    ensures Founded(cfg, s0, run, a, tx, b)
  {
    hide Legal, Final, FaceConfig, DocumentCutoff;
    var i, age :| TenantRead(cfg, s0, Front(run), i, tx, PhaseOf(known), age) && Front(run)[i].a == a
        && CutoffFrom(cfg, age, known);
    assert Front(run)[..i] == run[..i];
    assert Founding(cfg, s0, run, a, i, |run| - 1, age, tx, b);
  }

  /** The document verdict: answered before, and read now. */
  lemma ReadFounds(cfg: Settings, s0: State, run: seq<Event>)
    requires run != [] && Legal(cfg, s0, run) && Sourced(cfg, s0, Front(run)) && Rooted(Final(cfg, s0, Front(run)))
    requires run[|run| - 1].Work? && run[|run| - 1].w.ReadTenant?
    ensures var t, a := Final(cfg, s0, run), run[|run| - 1].a;
            && a in t.attempts && (VerdictAt(t.attempts[a].pc).Some? ==>
                 Founded(cfg, s0, run, a, t.attempts[a].job.tx, VerdictAt(t.attempts[a].pc).value.basis))
  {
    var s, t, e := Final(cfg, s0, Front(run)), Final(cfg, s0, run), run[|run| - 1];
    ReadLast(cfg, s0, run);
    ReadIs(cfg, s, e.a);
    CarrierKnows(cfg, s0, Front(run), e.a);
    hide Enabled, Apply, Rooted, Sourced, TenantRead, MeasuredBy, Founded, CutoffFrom;
    if s.attempts[e.a].pc.Deciding? {
      var b := VerdictAt(t.attempts[e.a].pc).value.basis;
      var age := s.requiredAge[s.jobs[s.attempts[e.a].job]];
      FoundByReading(cfg, s0, run, e.a, s.attempts[e.a].job.tx, age, b);
    }
  }

  /** The last event of the run reads a tenant. */
  lemma ReadLast(cfg: Settings, s0: State, run: seq<Event>)
    requires run != [] && Legal(cfg, s0, run) && Rooted(Final(cfg, s0, Front(run)))
    requires run[|run| - 1].Work? && run[|run| - 1].w.ReadTenant?
    ensures var s, e := Final(cfg, s0, Front(run)), run[|run| - 1];
            && At(s, e.a) && s.jobs[s.attempts[e.a].job] in s.requiredAge && PhaseFits(s.attempts[e.a])
            && TenantRead(cfg, s0, run, |run| - 1, s.attempts[e.a].job.tx, s.attempts[e.a].job.phase,
                          s.requiredAge[s.jobs[s.attempts[e.a].job]])
  {
    LastWork(cfg, s0, run);
    hide Rooted, Apply;
  }

  /** What reading the tenant makes of an attempt. */
  lemma ReadIs(cfg: Settings, s: State, a: AttemptId)
    requires Enabled(cfg, s, Work(a, ReadTenant)) && PhaseFits(s.attempts[a])
    ensures var x, y := s.attempts[a], Apply(cfg, s, Work(a, ReadTenant)).attempts;
            && a in y && y[a].job == x.job && (x.pc.Scoping? || x.pc.Deciding?)
            && (x.pc.Scoping? ==> VerdictAt(y[a].pc).None?)
            && (x.pc.Deciding? ==>
                  && VerdictAt(y[a].pc).Some?
                  && var b := VerdictAt(y[a].pc).value.basis;
                     b.ByDocument? && Holds(x.pc) == Some(MeasurementOf(b)) && PhaseOf(b) == x.job.phase
                     && CutoffFrom(cfg, s.requiredAge[s.jobs[x.job]], b))
  {
    hide DecideDocument, AgeFromDocument;
    assert Apply(cfg, s, Work(a, ReadTenant)) == DoReadTenant(cfg, s, a);
  }

  lemma FoundByReading(cfg: Settings, s0: State, run: seq<Event>, a: AttemptId, tx: TxId, age: int, b: Basis)
    requires run != [] && MeasuredBy(cfg, s0, Front(run), a, tx, MeasurementOf(b)) && b.ByDocument?
    requires run[|run| - 1].Work? && run[|run| - 1].a == a && TenantRead(cfg, s0, run, |run| - 1, tx, PhaseOf(b), age)
    requires CutoffFrom(cfg, age, b)
    ensures Founded(cfg, s0, run, a, tx, b)
  {
    hide Legal, Final, FaceConfig, DocumentCutoff;
    var j :| MeasuredAt(cfg, s0, Front(run), j, tx, MeasurementOf(b)) && Front(run)[j].a == a;
    assert Front(run)[..j] == run[..j];
    assert Founding(cfg, s0, run, a, |run| - 1, j, age, tx, b);
  }

  // ----- in every legal run -----

  lemma QuietFounded(cfg: Settings, s0: State, run: seq<Event>)
    requires run != [] && Legal(cfg, s0, run) && AllFounded(cfg, s0, Front(run)) && !run[|run| - 1].Work?
    ensures AllFounded(cfg, s0, run)
  {
    var s, t, e := Final(cfg, s0, Front(run)), Final(cfg, s0, run), run[|run| - 1];
    QuietAttempts(cfg, s, e);
    hide Founded, Enabled, Apply, VerdictAt;
    forall a | a in t.attempts && VerdictAt(t.attempts[a].pc).Some?
      ensures Founded(cfg, s0, run, a, t.attempts[a].job.tx, VerdictAt(t.attempts[a].pc).value.basis)
    {
      LaterFounded(cfg, s0, run, a, t.attempts[a].job.tx, VerdictAt(t.attempts[a].pc).value.basis);
    }
    OldAudits(cfg, s0, run, s.trails, t.trails);
  }

  lemma OldAudits(cfg: Settings, s0: State, run: seq<Event>, trails: map<TxId, Trail>, later: map<TxId, Trail>)
    requires run != [] && AuditsFounded(cfg, s0, Front(run), trails)
    requires forall tx | tx in later && later[tx].audits != [] :: tx in trails && later[tx].audits == trails[tx].audits
    ensures AuditsFounded(cfg, s0, run, later)
  {
    hide FoundedBySome;
    forall tx, v | tx in later && v in later[tx].audits ensures FoundedBySome(cfg, s0, run, tx, v.basis) {
      assert tx in trails && v in trails[tx].audits;
      LaterFoundedBySome(cfg, s0, run, tx, v.basis);
    }
  }

  lemma MoverFounded(cfg: Settings, s0: State, run: seq<Event>)
    requires run != [] && Legal(cfg, s0, run) && AllFounded(cfg, s0, Front(run)) && run[|run| - 1].Work?
    requires Sourced(cfg, s0, Front(run)) && Rooted(Final(cfg, s0, Front(run)))
    ensures var t, a := Final(cfg, s0, run), run[|run| - 1].a;
            a in t.attempts && (VerdictAt(t.attempts[a].pc).Some? ==>
              Founded(cfg, s0, run, a, t.attempts[a].job.tx, VerdictAt(t.attempts[a].pc).value.basis))
  {
    var s, t, e := Final(cfg, s0, Front(run)), Final(cfg, s0, run), run[|run| - 1];
    hide Founded, VerdictAt, Rooted, Sourced, WorkApply, WorkEnabled, AuditsFounded;
    if e.w.Analyze? {
      AnswerFounds(cfg, s0, run);
    } else if e.w.ReadTenant? {
      ReadFounds(cfg, s0, run);
    } else {
      VerdictStep(cfg, s, e.a, e.w);
      OneAttemptMoves(cfg, s, e.a, e.w);
      if VerdictAt(t.attempts[e.a].pc).Some? {
        LaterFounded(cfg, s0, run, e.a, t.attempts[e.a].job.tx, VerdictAt(t.attempts[e.a].pc).value.basis);
      }
    }
  }

  lemma WorkFounded(cfg: Settings, s0: State, run: seq<Event>)
    requires run != [] && Legal(cfg, s0, run) && AllFounded(cfg, s0, Front(run)) && run[|run| - 1].Work?
    requires Sourced(cfg, s0, Front(run)) && Rooted(Final(cfg, s0, Front(run)))
    ensures AllFounded(cfg, s0, run)
  {
    AttemptsStayFounded(cfg, s0, run);
    AuditsStayFounded(cfg, s0, run);
    hide Rooted, Sourced, AttemptsFounded, AuditsFounded;
  }

  lemma AttemptsStayFounded(cfg: Settings, s0: State, run: seq<Event>)
    requires run != [] && Legal(cfg, s0, run) && AllFounded(cfg, s0, Front(run)) && run[|run| - 1].Work?
    requires Sourced(cfg, s0, Front(run)) && Rooted(Final(cfg, s0, Front(run)))
    ensures AttemptsFounded(cfg, s0, run, Final(cfg, s0, run).attempts)
  {
    var s, t, e := Final(cfg, s0, Front(run)), Final(cfg, s0, run), run[|run| - 1];
    MoverFounded(cfg, s0, run);
    OneAttemptMoves(cfg, s, e.a, e.w);
    hide Founded, Rooted, Sourced, WorkApply, WorkEnabled, AuditsFounded, VerdictAt;
    forall b | b in t.attempts && VerdictAt(t.attempts[b].pc).Some?
      ensures Founded(cfg, s0, run, b, t.attempts[b].job.tx, VerdictAt(t.attempts[b].pc).value.basis)
    {
      if b != e.a { LaterFounded(cfg, s0, run, b, t.attempts[b].job.tx, VerdictAt(t.attempts[b].pc).value.basis); }
    }
  }

  lemma AuditsStayFounded(cfg: Settings, s0: State, run: seq<Event>)
    requires run != [] && Legal(cfg, s0, run) && AllFounded(cfg, s0, Front(run)) && run[|run| - 1].Work?
    ensures AuditsFounded(cfg, s0, run, Final(cfg, s0, run).trails)
  {
    var s, t, e := Final(cfg, s0, Front(run)), Final(cfg, s0, run), run[|run| - 1];
    WorkLeavesDesk(cfg, s, e.a, e.w);
    hide FoundedBySome, WorkApply, WorkEnabled, AllFounded;
    forall tx, v | tx in t.trails && v in t.trails[tx].audits ensures FoundedBySome(cfg, s0, run, tx, v.basis) {
      AuditFounded(cfg, s0, run, tx, v);
    }
  }

  lemma AuditFounded(cfg: Settings, s0: State, run: seq<Event>, tx: TxId, v: Verdict)
    requires run != [] && Legal(cfg, s0, run) && AllFounded(cfg, s0, Front(run)) && run[|run| - 1].Work?
    requires var s, t := Final(cfg, s0, Front(run)), Final(cfg, s0, run);
             tx in s.trails && tx in t.trails && v in t.trails[tx].audits
    ensures FoundedBySome(cfg, s0, run, tx, v.basis)
  {
    var s, t, e := Final(cfg, s0, Front(run)), Final(cfg, s0, run), run[|run| - 1];
    hide Founded, WorkApply, WorkEnabled;
    var k :| 0 <= k < |t.trails[tx].audits| && t.trails[tx].audits[k] == v;
    AuditCarries(cfg, s, e.a, e.w, tx, k);
    if v in s.trails[tx].audits {
      LaterFoundedBySome(cfg, s0, run, tx, v.basis);
    } else {
      assert VerdictAt(s.attempts[e.a].pc) == Some(v);
      LaterFounded(cfg, s0, run, e.a, tx, v.basis);
    }
  }

  /** Over every legal run, behind every verdict that an attempt carries or that was written there are
      two steps of one attempt, in the order of its phase: it read the required age of the tenant of
      the transaction, which is the cutoff, and was given the measurement. */
  lemma {:induction false} RunFounded(cfg: Settings, s0: State, run: seq<Event>)
    requires FromStart(s0) && Legal(cfg, s0, run)
    ensures AllFounded(cfg, s0, run)
    decreases |run|
  {
    if run != [] {
      RunFounded(cfg, s0, Front(run));
      AllSourced(cfg, s0, Front(run));
      RunRooted(cfg, s0, Front(run));
      hide Rooted, Sourced, AllFounded;
      match run[|run| - 1]
      case Work(a, w) => WorkFounded(cfg, s0, run);
      case _ => QuietFounded(cfg, s0, run);
    }
  }

  lemma AnswerIs(cfg: Settings, s: State, a: AttemptId, result: AgeResult)
    requires Enabled(cfg, s, Work(a, Analyze(result)))
    ensures var y := Apply(cfg, s, Work(a, Analyze(result))).attempts;
            && s.attempts[a].pc.Analyzing? && a in y && y[a].job == s.attempts[a].job
            && VerdictAt(y[a].pc).Some? && VerdictAt(y[a].pc).value.basis == ByFace(result, s.attempts[a].pc.cfg)
  {
    hide DecideVerification;
    assert Apply(cfg, s, Work(a, Analyze(result))) == DoAnalyze(s, a, result);
  }
}
