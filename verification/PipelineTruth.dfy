/** What is written and sent is true, in every legal run. */
module PipelineTruth {
  import opened Wrappers
  import opened Decision
  import opened Pipeline
  import opened PipelineInvariant
  import opened PipelineTheorems
  import opened PipelineAnyRun

  /** The verdict is that of one of the two rules on its own basis. */
  predicate Ruled(v: Verdict) {
    FaceVerdict(v) || DocumentVerdict(v)
  }

  predicate TokenTrue(t: Trail, v: Verdict, token: Option<Token>) {
    token.Some? ==> v.status == DocumentoRequerido && token.value in t.issued
  }

  /** What an attempt of the transaction is about to write or send. */
  predicate PcTrue(t: Trail, pc: Pc) {
    match pc
    case Issuing(v) => Ruled(v) && v.status == DocumentoRequerido
    case Auditing(v, token) => Ruled(v) && TokenTrue(t, v, token)
    case Recording(v, token) => v in t.audits && TokenTrue(t, v, token)
    case Dispatching(v, token, _) => v in t.audits && v in t.records && TokenTrue(t, v, token)
    case _ => true
  }

  /** Payload p names its transaction, repeats the status of a verdict written to both tables, and
      shows a document token only with documento_requerido and only one issued for it. */
  predicate SaysWhatWasWritten(t: Trail, tx: TxId, p: Payload) {
    && p.tx == tx && p.isOver18 == (p.status == Aprovado)
    && (exists v :: v in t.records && v in t.audits && v.status == p.status)
    && (p.token.Some? ==> p.status == DocumentoRequerido && p.token.value in t.issued)
  }

  predicate TrailTrue(tx: TxId, t: Trail) {
    && (forall v | v in t.audits :: Ruled(v))
    && (forall v | v in t.records :: v in t.audits && Storable(v))
    && (forall p | p in t.sent :: SaysWhatWasWritten(t, tx, p))
  }

  /** Both rows of a transaction are the last ones written for it. */
  predicate RowsTrue(s: State, tx: TxId) {
    if tx in s.trails then
      var t := s.trails[tx];
      RowOk(s.audit, tx, t.tenant, t.audits) && RowOk(s.records, tx, t.tenant, t.records)
    else tx !in s.audit && tx !in s.records
  }

  predicate AttemptTrue(s: State, x: Attempt) {
    x.job.tx in s.trails && PcTrue(s.trails[x.job.tx], x.pc)
  }

  ghost predicate Truthful(s: State) {
    && (forall tx | tx in s.trails :: TrailTrue(tx, s.trails[tx]))
    && (forall tx: TxId :: RowsTrue(s, tx))
    && (forall a | a in s.attempts :: AttemptTrue(s, s.attempts[a]))
  }

  lemma PcStaysTrue(t: Trail, u: Trail, pc: Pc)
    requires PcTrue(t, pc) && Longer(t, u)
    ensures PcTrue(u, pc)
  {
    hide Ruled;
  }

  lemma PayloadStaysTrue(t: Trail, u: Trail, tx: TxId, p: Payload)
    requires SaysWhatWasWritten(t, tx, p) && Longer(t, u)
    ensures SaysWhatWasWritten(u, tx, p)
  {
    var v :| v in t.records && v in t.audits && v.status == p.status;
    assert v in u.records && v in u.audits;
  }

  // ----- one trail gets longer -----

  lemma SentStaysTrue(t: Trail, u: Trail, tx: TxId)
    requires TrailTrue(tx, t) && Longer(t, u)
    ensures forall p | p in t.sent :: SaysWhatWasWritten(u, tx, p)
  {
    hide Ruled, Storable;
    forall p | p in t.sent ensures SaysWhatWasWritten(u, tx, p) { PayloadStaysTrue(t, u, tx, p); }
  }

  /** Each of the four writes keeps a trail true. */
  lemma TrailStaysTrue(t: Trail, u: Trail, tx: TxId)
    requires TrailTrue(tx, t) && Longer(t, u)
    requires forall v | v in u.audits && v !in t.audits :: Ruled(v)
    requires forall v | v in u.records && v !in t.records :: v in u.audits && Storable(v)
    requires forall p | p in u.sent && p !in t.sent :: SaysWhatWasWritten(u, tx, p)
    ensures TrailTrue(tx, u)
  {
    SentStaysTrue(t, u, tx);
    hide Ruled, Storable, SaysWhatWasWritten;
  }

  /** Attempt a moves on and may make the trail and the rows of its transaction longer. */
  ghost predicate Extends(s: State, t: State, a: AttemptId) {
    && At(s, a) && a in t.attempts && t.attempts == s.attempts[a := t.attempts[a]]
    && t.attempts[a].job == s.attempts[a].job
    && var tx := s.attempts[a].job.tx;
    && tx in t.trails && t.trails == s.trails[tx := t.trails[tx]] && Longer(s.trails[tx], t.trails[tx])
    && (forall x | x != tx :: SameRow(s.audit, t.audit, x) && SameRow(s.records, t.records, x))
  }

  lemma ExtendedTruth(s: State, t: State, a: AttemptId)
    requires Truthful(s) && Extends(s, t, a)
    requires TrailTrue(s.attempts[a].job.tx, t.trails[s.attempts[a].job.tx]) && RowsTrue(t, s.attempts[a].job.tx)
    requires PcTrue(t.trails[s.attempts[a].job.tx], t.attempts[a].pc)
    ensures Truthful(t)
  {
    hide Longer, TrailTrue, PcTrue;
    forall tx: TxId ensures RowsTrue(t, tx) {
      assert RowsTrue(s, tx);
      if tx != s.attempts[a].job.tx { assert SameRow(s.audit, t.audit, tx) && SameRow(s.records, t.records, tx); }
    }
    hide RowsTrue;
    forall b | b in t.attempts ensures AttemptTrue(t, t.attempts[b]) {
      if b != a {
        assert AttemptTrue(s, s.attempts[b]);
        if s.attempts[b].job.tx == s.attempts[a].job.tx {
          PcStaysTrue(s.trails[s.attempts[a].job.tx], t.trails[s.attempts[a].job.tx], s.attempts[b].pc);
        }
      }
    }
  }

  lemma TrueHere(s: State, a: AttemptId)
    requires Truthful(s) && At(s, a)
    ensures var tx := s.attempts[a].job.tx;
            TrailTrue(tx, s.trails[tx]) && RowsTrue(s, tx) && PcTrue(s.trails[tx], s.attempts[a].pc)
  {
    assert AttemptTrue(s, s.attempts[a]);
  }

  lemma IssueExtends(s: State, a: AttemptId, token: Token)
    requires At(s, a) && s.attempts[a].pc.Issuing?
    ensures Extends(s, DoIssue(s, a, token), a)
  {
  }

  lemma IssueTruth(s: State, a: AttemptId, token: Token)
    requires Truthful(s) && At(s, a) && s.attempts[a].pc.Issuing?
    ensures Truthful(DoIssue(s, a, token))
  {
    var tx, t := s.attempts[a].job.tx, DoIssue(s, a, token);
    TrueHere(s, a);
    IssueExtends(s, a, token);
    hide Truthful, TrailTrue, Extends, Ruled;
    TrailStaysTrue(s.trails[tx], t.trails[tx], tx);
    ExtendedTruth(s, t, a);
  }

  lemma AuditExtends(s: State, a: AttemptId)
    requires At(s, a) && s.attempts[a].pc.Auditing?
    ensures Extends(s, DoAudit(s, a), a)
  {
  }

  lemma AuditTruth(s: State, a: AttemptId)
    requires Truthful(s) && At(s, a) && s.attempts[a].pc.Auditing?
    requires s.jobs[s.attempts[a].job] == s.trails[s.attempts[a].job.tx].tenant
    ensures Truthful(DoAudit(s, a))
  {
    var tx, t := s.attempts[a].job.tx, DoAudit(s, a);
    TrueHere(s, a);
    AuditExtends(s, a);
    hide Truthful, TrailTrue, Extends, Ruled;
    TrailStaysTrue(s.trails[tx], t.trails[tx], tx);
    ExtendedTruth(s, t, a);
  }

  lemma RecordExtends(s: State, a: AttemptId)
    requires At(s, a) && s.attempts[a].pc.Recording?
    ensures Extends(s, DoRecord(s, a), a)
  {
  }

  lemma RecordTruth(s: State, a: AttemptId)
    requires Truthful(s) && At(s, a) && s.attempts[a].pc.Recording? && Storable(s.attempts[a].pc.v)
    requires s.jobs[s.attempts[a].job] == s.trails[s.attempts[a].job.tx].tenant
    ensures Truthful(DoRecord(s, a))
  {
    var tx, t := s.attempts[a].job.tx, DoRecord(s, a);
    TrueHere(s, a);
    RecordExtends(s, a);
    RecordRows(s, a);
    hide Truthful, TrailTrue, Extends, RowsTrue, Ruled, Storable;
    TrailStaysTrue(s.trails[tx], t.trails[tx], tx);
    ExtendedTruth(s, t, a);
  }

  lemma RecordRows(s: State, a: AttemptId)
    requires At(s, a) && s.attempts[a].pc.Recording? && RowsTrue(s, s.attempts[a].job.tx)
    requires s.jobs[s.attempts[a].job] == s.trails[s.attempts[a].job.tx].tenant
    ensures RowsTrue(DoRecord(s, a), s.attempts[a].job.tx)
  {
  }

  lemma SendExtends(cfg: Settings, s: State, a: AttemptId, ok: bool)
    requires At(s, a) && s.attempts[a].pc.Dispatching?
    ensures Extends(s, DoSend(cfg, s, a, ok), a)
  {
  }

  lemma SendTruth(cfg: Settings, s: State, a: AttemptId, ok: bool)
    requires Truthful(s) && At(s, a) && s.attempts[a].pc.Dispatching?
    ensures Truthful(DoSend(cfg, s, a, ok))
  {
    var tx, t := s.attempts[a].job.tx, DoSend(cfg, s, a, ok);
    TrueHere(s, a);
    SendExtends(cfg, s, a, ok);
    hide Truthful, TrailTrue, Extends, Ruled, Storable;
    var v := s.attempts[a].pc.v;
    assert v in t.trails[tx].records && v in t.trails[tx].audits;
    TrailStaysTrue(s.trails[tx], t.trails[tx], tx);
    ExtendedTruth(s, t, a);
  }

  // ----- every other step -----

  /** No trail and no row changes, and whoever moves has nothing new to say. */
  lemma QuietTruth(s: State, t: State)
    requires Truthful(s) && t.trails == s.trails && t.audit == s.audit && t.records == s.records
    requires forall a | a in t.attempts :: (a in s.attempts && t.attempts[a] == s.attempts[a])
               || AttemptTrue(t, t.attempts[a])
    ensures Truthful(t)
  {
    hide TrailTrue, PcTrue;
    forall tx: TxId ensures RowsTrue(t, tx) { assert RowsTrue(s, tx); }
    hide RowsTrue;
    forall a | a in t.attempts ensures AttemptTrue(t, t.attempts[a]) {
      if a in s.attempts && t.attempts[a] == s.attempts[a] { assert AttemptTrue(s, s.attempts[a]); }
    }
  }

  lemma TenantTrue(cfg: Settings, t: Trail, pc: Pc, age: int)
    requires pc.Scoping? || pc.Deciding?
    ensures PcTrue(t, AfterTenant(cfg, pc, age))
  {
    hide AgeFromDocument;
  }

  lemma AnalyzeTrue(t: Trail, result: AgeResult, cfg: Config)
    ensures var v := Verdict(DecideVerification(result, cfg), ByFace(result, cfg));
            PcTrue(t, if v.status == DocumentoRequerido then Issuing(v) else Auditing(v, None))
  {
  }

  lemma QuietWorkTruth(cfg: Settings, s: State, a: AttemptId, w: WorkEvent)
    requires Truthful(s) && WorkEnabled(cfg, s, a, w) && !WritesTrail(w)
    ensures Truthful(WorkApply(cfg, s, a, w))
  {
    OneAttemptMoves(cfg, s, a, w);
    QuietMoves(cfg, s, a, w);
    var t := WorkApply(cfg, s, a, w);
    hide WorkApply, WorkEnabled, Truthful, PcTrue;
    QuietTruth(s, t);
  }

  lemma QuietMoves(cfg: Settings, s: State, a: AttemptId, w: WorkEvent)
    requires WorkEnabled(cfg, s, a, w) && !WritesTrail(w)
    ensures var t := WorkApply(cfg, s, a, w);
            && t.trails == s.trails && t.audit == s.audit && t.records == s.records
            && a in t.attempts && AttemptTrue(t, t.attempts[a])
  {
    hide PcTrue, AfterTenant, DecideVerification, Found;
    match w
    case ReadTenant =>
      TenantTrue(cfg, s.trails[s.attempts[a].job.tx], s.attempts[a].pc, s.requiredAge[s.jobs[s.attempts[a].job]]);
    case Analyze(result) => AnalyzeTrue(s.trails[s.attempts[a].job.tx], result, s.attempts[a].pc.cfg);
    case _ => QuietPc(cfg, s, a, w);
  }

  lemma QuietPc(cfg: Settings, s: State, a: AttemptId, w: WorkEvent)
    requires WorkEnabled(cfg, s, a, w) && !WritesTrail(w) && !w.ReadTenant? && !w.Analyze?
    ensures var t := WorkApply(cfg, s, a, w);
            && t.trails == s.trails && t.audit == s.audit && t.records == s.records
            && a in t.attempts && AttemptTrue(t, t.attempts[a])
  {
    QuietRows(cfg, s, a, w);
    QuietTurn(cfg, s, a, w);
    hide WorkApply, WorkEnabled, Ruled, TokenTrue;
  }

  lemma QuietRows(cfg: Settings, s: State, a: AttemptId, w: WorkEvent)
    requires WorkEnabled(cfg, s, a, w) && !WritesTrail(w)
    ensures var t := WorkApply(cfg, s, a, w); t.trails == s.trails && t.audit == s.audit && t.records == s.records
  {
    hide Found, AfterTenant, DecideVerification;
  }

  predicate Undecided(pc: Pc) {
    !pc.Issuing? && !pc.Auditing? && !pc.Recording? && !pc.Dispatching?
  }

  /** A step that decides nothing leads to where no verdict is held. */
  lemma QuietTurn(cfg: Settings, s: State, a: AttemptId, w: WorkEvent)
    requires WorkEnabled(cfg, s, a, w) && !WritesTrail(w) && !w.ReadTenant? && !w.Analyze?
    ensures var t := WorkApply(cfg, s, a, w);
            && a in t.attempts && t.attempts[a].job.tx in s.trails && Undecided(t.attempts[a].pc)
  {
    hide Found;
  }

  lemma WorkTruth(cfg: Settings, s: State, a: AttemptId, w: WorkEvent)
    requires Truthful(s) && Rooted(s) && WorkEnabled(cfg, s, a, w)
    ensures Truthful(WorkApply(cfg, s, a, w))
  {
    if WritesTrail(w) { assert AttemptRooted(s, s.attempts[a]) && JobRooted(s, s.attempts[a].job); }
    hide Truthful, Rooted, Storable;
    match w
    case IssueToken(token) => IssueTruth(s, a, token);
    case WriteAudit => AuditTruth(s, a);
    case WriteRecord => RecordTruth(s, a);
    case Send(ok) => SendTruth(cfg, s, a, ok);
    case _ => QuietWorkTruth(cfg, s, a, w);
  }

  lemma HttpTruth(cfg: Settings, s: State, r: RequestId, h: HttpEvent)
    requires Truthful(s) && HttpEnabled(cfg, s, r, h)
    ensures Truthful(HttpApply(cfg, s, r, h))
  {
    HttpShape(cfg, s, r, h);
    HttpWrites(cfg, s, r, h);
    hide HttpApply, HttpEnabled, Truthful, SameText;
    HandledTruth(s, HttpApply(cfg, s, r, h));
  }

  /** Trails are extended by nothing but new empty ones. */
  ghost predicate OnlyNewTrails(s: State, t: State) {
    && t.audit == s.audit && t.records == s.records
    && (forall tx | tx in s.trails :: tx in t.trails && SameText(s.trails[tx], t.trails[tx]))
    && (forall tx | tx in t.trails && tx !in s.trails ::
          t.trails[tx].audits == [] && t.trails[tx].records == [] && t.trails[tx].sent == [])
  }

  lemma HandledTruth(s: State, t: State)
    requires Truthful(s) && OnlyNewTrails(s, t) && t.attempts == s.attempts
    ensures Truthful(t)
  {
    assert forall tx: TxId :: RowsTrue(s, tx);
    assert forall a | a in s.attempts :: AttemptTrue(s, s.attempts[a]);
    hide SaysWhatWasWritten, Ruled, Storable;
    forall tx | tx in t.trails ensures TrailTrue(tx, t.trails[tx]) {
      if tx in s.trails { SameTextTrue(tx, s.trails[tx], t.trails[tx]); }
    }
    hide TrailTrue;
    forall tx: TxId ensures RowsTrue(t, tx) { assert RowsTrue(s, tx); }
    hide RowsTrue, PcTrue;
    forall a | a in t.attempts ensures AttemptTrue(t, t.attempts[a]) {
      assert AttemptTrue(s, s.attempts[a]);
      PcStaysTrue(s.trails[s.attempts[a].job.tx], t.trails[s.attempts[a].job.tx], s.attempts[a].pc);
    }
  }

  /** A handler adds an empty trail at most; it writes to no existing one but the request of its
      document session. */
  predicate SameText(t: Trail, u: Trail) {
    && u.tenant == t.tenant && u.session == t.session && u.issued == t.issued && u.audits == t.audits
    && u.records == t.records && u.sent == t.sent
  }

  lemma SameTextTrue(tx: TxId, t: Trail, u: Trail)
    requires TrailTrue(tx, t) && SameText(t, u)
    ensures TrailTrue(tx, u)
  {
    hide Ruled, Storable;
    forall p | p in u.sent ensures SaysWhatWasWritten(u, tx, p) { assert SaysWhatWasWritten(t, tx, p); }
  }

  lemma HttpWrites(cfg: Settings, s: State, r: RequestId, h: HttpEvent)
    requires HttpEnabled(cfg, s, r, h)
    ensures OnlyNewTrails(s, HttpApply(cfg, s, r, h))
  {
  }

  lemma StepTruth(cfg: Settings, s: State, e: Event)
    requires Truthful(s) && Rooted(s) && Enabled(cfg, s, e)
    ensures Truthful(Apply(cfg, s, e))
  {
    hide Truthful, Rooted;
    match e
    case Http(r, h) => HttpTruth(cfg, s, r, h);
    case Work(a, w) => WorkTruth(cfg, s, a, w);
    case _ => QuietTruth(s, Apply(cfg, s, e));
  }

  /** In every legal run from empty tables, timely or not, rows repeat the last writes, verdicts
      follow their rules, and what is sent was written before. */
  lemma {:induction false} RunTruth(cfg: Settings, s0: State, run: seq<Event>)
    requires FromStart(s0) && Legal(cfg, s0, run)
    ensures Truthful(Final(cfg, s0, run))
    decreases |run|
  {
    if run != [] {
      RunTruth(cfg, s0, Front(run));
      RunRooted(cfg, s0, Front(run));
      hide Truthful, Rooted, Enabled, Apply;
      StepTruth(cfg, Final(cfg, s0, Front(run)), run[|run| - 1]);
    }
  }

  // ----- webhooks -----

  /** Every webhook request ever sent says what had been written to both tables. */
  lemma WebhooksSayWhatWasWritten(cfg: Settings, s0: State, run: seq<Event>, tx: TxId, i: nat)
    requires FromStart(s0) && Legal(cfg, s0, run)
    requires tx in Final(cfg, s0, run).trails && i < |Final(cfg, s0, run).trails[tx].sent|
    ensures var t := Final(cfg, s0, run).trails[tx]; SaysWhatWasWritten(t, tx, t.sent[i])
  {
    RunTruth(cfg, s0, run);
    hide Final, Legal, SaysWhatWasWritten;
    assert TrailTrue(tx, Final(cfg, s0, run).trails[tx]);
  }

  /** In a timely run the token shown is the only one ever issued for the transaction. */
  lemma OneTokenShown(cfg: Settings, s0: State, run: seq<Event>, tx: TxId, i: nat)
    requires GoodRun(cfg, s0, run)
    requires tx in Final(cfg, s0, run).trails && i < |Final(cfg, s0, run).trails[tx].sent|
    requires Final(cfg, s0, run).trails[tx].sent[i].token.Some?
    ensures var t := Final(cfg, s0, run).trails[tx]; t.issued == [t.sent[i].token.value]
  {
    hide Inv, Final, TimelyRun, SaysWhatWasWritten, Legal, Initial;
    RunInv(cfg, s0, run);
    WebhooksSayWhatWasWritten(cfg, s0, run, tx, i);
    var t := Final(cfg, s0, run).trails[tx];
    OneIssued(cfg, Final(cfg, s0, run), tx);
    ShownWasIssued(t, tx, t.sent[i]);
  }

  lemma ShownWasIssued(t: Trail, tx: TxId, p: Payload)
    requires SaysWhatWasWritten(t, tx, p) && p.token.Some?
    ensures p.token.value in t.issued
  {
  }

  lemma OneIssued(cfg: Settings, s: State, tx: TxId)
    requires Inv(cfg, s) && tx in s.trails
    ensures |s.trails[tx].issued| <= 1
  {
    assert TxOk(cfg, s, tx);
  }

  // ----- stored records -----

  /** The reason that a record of the verdict carries. */
  function ReasonOf(v: Verdict): Reason {
    match v.basis
    case ByFace(result, cfg) => ExplainAgeDecision(result, cfg, v.status)
    case ByDocument(check, at, cutoff, _) =>
      ExplainDocument(AgeFromDocument(check.birth, at), check, cutoff, v.status)
  }

  /** The number is an integer of 32 bits. */
  predicate IsInteger(x: real, n: int) {
    -2_147_483_648 <= n <= 2_147_483_647 && x == n as real
  }

  ghost predicate Integral(x: real) {
    exists n :: IsInteger(x, n)
  }

  /** What the integer columns of the record table hold: the ages and the margin of a face check; the
      cutoff of a document check, and its age, which has to be one. */
  ghost predicate FitsColumns(v: Verdict) {
    match v.basis
    case ByFace(r, c) => Integral(r.estimatedAge) && Integral(c.cutoffAge) && Integral(c.margin)
    case ByDocument(check, _, cutoff, _) => !check.birth.NotADate? && Integral(cutoff)
  }

  lemma StorableMeans(v: Verdict)
    ensures Storable(v) <==> FitsColumns(v)
  {
    forall x: real ensures IntColumn(x) <==> Integral(x) { IntColumnMeans(x); }
    hide IntColumn, Integral;
  }

  lemma IntColumnMeans(x: real)
    ensures IntColumn(x) <==> Integral(x)
  {
    if IntColumn(x) { assert IsInteger(x, x.Floor); }
  }

  /** The record is the last one written, by the tenant of its transaction, of a verdict that was
      audited before; its numbers fit the columns, and the reason it carries is true of them. */
  ghost predicate RecordTrue(s: State, tx: TxId)
    requires tx in s.records
  {
    var v := s.records[tx].verdict;
    && tx in s.trails && s.records[tx].tenant == s.trails[tx].tenant
    && s.trails[tx].records != [] && v == s.trails[tx].records[|s.trails[tx].records| - 1]
    && v in s.trails[tx].audits && FitsColumns(v) && Holds(ReasonOf(v))
  }

  /** The reason of a verdict that follows its rule is true exactly when it is not the approval of
      a text that is no date; and such a verdict is never stored. */
  lemma ReasonTrueWhenStorable(v: Verdict)
    requires Ruled(v)
    ensures Holds(ReasonOf(v)) <==> v.basis.ByFace? || v.status != Aprovado || v.basis.check.birth.Born?
    ensures Storable(v) ==> Holds(ReasonOf(v))
  {
    match v.basis
    case ByFace(result, cfg) => ReasonIsTrue(result, cfg, v.status);
    case ByDocument(check, at, cutoff, minFaceMatch) => DocumentReasonIsTrue(check, cutoff, minFaceMatch, at);
  }

  /** Stored records tell the truth, in every legal run. */
  lemma RecordsTellTheTruth(cfg: Settings, s0: State, run: seq<Event>, tx: TxId)
    requires FromStart(s0) && Legal(cfg, s0, run) && tx in Final(cfg, s0, run).records
    ensures RecordTrue(Final(cfg, s0, run), tx)
  {
    RunTruth(cfg, s0, run);
    RecordTells(Final(cfg, s0, run), tx);
    hide Final, Legal, Truthful, RecordTrue;
  }

  lemma RecordTells(s: State, tx: TxId)
    requires Truthful(s) && tx in s.records
    ensures RecordTrue(s, tx)
  {
    assert RowsTrue(s, tx);
    assert TrailTrue(tx, s.trails[tx]);
    var v := s.records[tx].verdict;
    hide Truthful, Ruled, Storable, ReasonOf, SaysWhatWasWritten, FitsColumns;
    assert v in s.trails[tx].records;
    ReasonTrueWhenStorable(v);
    StorableMeans(v);
  }

  /** A text that is no date can be approved, but no such verdict is ever stored as a record, and
      what is sent repeats the status of a stored one. */
  lemma NoDateNeverStored(cfg: Settings, s0: State, run: seq<Event>, tx: TxId, v: Verdict)
    requires FromStart(s0) && Legal(cfg, s0, run) && tx in Final(cfg, s0, run).trails
    requires v.basis.ByDocument? && v.basis.check.birth.NotADate?
    ensures v !in Final(cfg, s0, run).trails[tx].records
  {
    RunTruth(cfg, s0, run);
    hide Final, Legal, SaysWhatWasWritten, Ruled;
    assert TrailTrue(tx, Final(cfg, s0, run).trails[tx]);
  }
}
