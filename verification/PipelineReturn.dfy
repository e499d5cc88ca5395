/** Exactly when images that a document check has erased can come back: some legal continuation puts
    one of them again if and only if a document request is under way, or an open document session can
    still be presented in time, or a document token can still be issued and shown. */
module PipelineReturn {
  import opened Wrappers
  import opened Sets
  import opened Decision
  import opened Pipeline
  import opened PipelineTheorems
  import opened PipelineAnyRun
  import opened PipelineTruth
  import opened PipelineErasure
  import opened PipelineMoves

  // ----- what can still lead to a put -----

  /** A request that took a document session and has a put before it. */
  predicate WillPut(cfg: Settings, now: int, q: Request, tx: TxId) {
    match q
    case TookDocumentSession(x, _, createdAt) => x == tx && now - createdAt <= cfg.sessionTtlMs
    case DocumentAdmitted(x, _) => x == tx
    case DocumentStored(x, _) => x == tx
    case _ => false
  }

  /** An attempt that carries token k and can still send it. */
  predicate CanShow(cfg: Settings, pc: Pc, k: Token) {
    match pc
    case Auditing(v, token) => token == Some(k) && Storable(v) && cfg.retries >= 0
    case Recording(v, token) => token == Some(k) && Storable(v) && cfg.retries >= 0
    case Dispatching(_, token, tries) => token == Some(k) && tries <= cfg.retries
    case _ => false
  }

  /** Some answer of the provider falls into the grey zone and fits the record table. */
  predicate GreyPossible(c: Config) {
    c.margin > 0.0 && IntColumn(c.cutoffAge) && IntColumn(c.margin)
  }

  /** A face attempt that can still come to issue a token. */
  predicate CanIssue(cfg: Settings, pc: Pc) {
    match pc
    case Issuing(v) => Storable(v)
    case Analyzing(c) => GreyPossible(c)
    case Scoping => GreyPossible(FaceConfig(cfg.decision, 18))
    case Acquiring(_) => GreyPossible(FaceConfig(cfg.decision, 18))
    case _ => false
  }

  ghost predicate Submitting(cfg: Settings, s: State, tx: TxId) {
    exists r :: r in s.requests && WillPut(cfg, s.now, s.requests[r], tx)
  }

  ghost predicate Shown(cfg: Settings, s: State, tx: TxId, k: Token) {
    Revealed(s, tx, k) || exists a :: a in s.attempts && s.attempts[a].job.tx == tx && CanShow(cfg, s.attempts[a].pc, k)
  }

  ghost predicate Presentable(cfg: Settings, s: State, tx: TxId) {
    exists k :: k in s.documentSessions && s.documentSessions[k].tx == tx
                && s.now - s.documentSessions[k].createdAt <= cfg.sessionTtlMs && Shown(cfg, s, tx, k)
  }

  ghost predicate Issuable(cfg: Settings, s: State, tx: TxId) {
    && cfg.sessionTtlMs >= 0 && cfg.retries >= 0
    && ((Found(s, FrameRef(tx)) && GreyPossible(FaceConfig(cfg.decision, 18)))
        || exists a :: a in s.attempts && s.attempts[a].job == Job(tx, FacePhase) && CanIssue(cfg, s.attempts[a].pc))
  }

  ghost predicate CanReturn(cfg: Settings, s: State, tx: TxId) {
    Submitting(cfg, s, tx) || Presentable(cfg, s, tx) || Issuable(cfg, s, tx)
  }

  /** That continuation puts an image of the transaction. */
  ghost predicate PutsAgain(cfg: Settings, s0: State, run: seq<Event>, longer: seq<Event>, tx: TxId) {
    run <= longer && Legal(cfg, s0, longer) && !ImagesGone(Final(cfg, s0, longer), tx)
  }

  lemma PutsLater(cfg: Settings, s0: State, run: seq<Event>, more: seq<Event>, longer: seq<Event>, tx: TxId)
    requires run <= more && PutsAgain(cfg, s0, more, longer, tx)
    ensures PutsAgain(cfg, s0, run, longer, tx)
  {
  }

  // ----- what can lead there does -----

  lemma TakeStands(cfg: Settings, s: State, r: RequestId, k: Token)
    requires r !in s.requests && k in s.documentSessions && Revealed(s, s.documentSessions[k].tx, k)
    ensures var e, d := Http(r, TakeDocumentSession(k)), s.documentSessions[k];
            && Enabled(cfg, s, e) && Apply(cfg, s, e).now == s.now && r in Apply(cfg, s, e).requests
            && Apply(cfg, s, e).requests[r] == TookDocumentSession(d.tx, d.tenant, d.createdAt)
  {
    assert Apply(cfg, s, Http(r, TakeDocumentSession(k))) == DoTakeDocumentSession(s, r, k);
  }

  lemma AdmitStands(cfg: Settings, s: State, r: RequestId, tx: TxId)
    requires r in s.requests && s.requests[r].TookDocumentSession? && WillPut(cfg, s.now, s.requests[r], tx)
    ensures var e := Http(r, AdmitDocument);
            && Enabled(cfg, s, e) && Apply(cfg, s, e).now == s.now && r in Apply(cfg, s, e).requests
            && Apply(cfg, s, e).requests[r] == DocumentAdmitted(tx, s.requests[r].tenant)
  {
    assert Apply(cfg, s, Http(r, AdmitDocument)) == DoAdmitDocument(s, r);
  }

  lemma PutStands(cfg: Settings, s: State, r: RequestId, tx: TxId)
    requires r in s.requests && s.requests[r].DocumentAdmitted? && s.requests[r].tx == tx
    ensures var e := Http(r, PutDocument([])); Enabled(cfg, s, e) && !ImagesGone(Apply(cfg, s, e), tx)
  {
    assert Apply(cfg, s, Http(r, PutDocument([]))) == DoPutDocument(cfg, s, r, []);
  }

  lemma PutSelfieStands(cfg: Settings, s: State, r: RequestId, tx: TxId)
    requires r in s.requests && s.requests[r].DocumentStored? && s.requests[r].tx == tx
    ensures var e := Http(r, PutSelfie([])); Enabled(cfg, s, e) && !ImagesGone(Apply(cfg, s, e), tx)
  {
    assert Apply(cfg, s, Http(r, PutSelfie([]))) == DoPutSelfie(cfg, s, r, []);
  }

  lemma SubmittingPuts(cfg: Settings, s0: State, run: seq<Event>, s: State, r: RequestId, tx: TxId)
    returns (longer: seq<Event>)
    requires Goes(cfg, s0, run, s, false) && r in s.requests && WillPut(cfg, s.now, s.requests[r], tx)
    ensures PutsAgain(cfg, s0, run, longer, tx)
    decreases if r in s.requests && s.requests[r].TookDocumentSession? then 1 else 0
  {
    hide Enabled, Apply, ImagesGone;
    var t;
    if s.requests[r].TookDocumentSession? {
      AdmitStands(cfg, s, r, tx);
      longer, t := GoOn(cfg, s0, run, s, false, Http(r, AdmitDocument));
      var more := longer;
      longer := SubmittingPuts(cfg, s0, more, t, r, tx);
    } else if s.requests[r].DocumentAdmitted? {
      PutStands(cfg, s, r, tx);
      longer, t := GoOn(cfg, s0, run, s, false, Http(r, PutDocument([])));
    } else {
      PutSelfieStands(cfg, s, r, tx);
      longer, t := GoOn(cfg, s0, run, s, false, Http(r, PutSelfie([])));
    }
  }

  lemma RevealedPuts(cfg: Settings, s0: State, run: seq<Event>, s: State, k: Token, tx: TxId)
    returns (longer: seq<Event>)
    requires Goes(cfg, s0, run, s, false) && k in s.documentSessions && s.documentSessions[k].tx == tx
    requires s.now - s.documentSessions[k].createdAt <= cfg.sessionTtlMs && Revealed(s, tx, k)
    ensures PutsAgain(cfg, s0, run, longer, tx)
  {
    SomeNatIsNew(s.requests.Keys);
    var r: nat :| r !in s.requests;
    TakeStands(cfg, s, r, k);
    hide Enabled, Apply, Goes, PutsAgain, Revealed;
    var more, t := GoOn(cfg, s0, run, s, false, Http(r, TakeDocumentSession(k)));
    longer := SubmittingPuts(cfg, s0, more, t, r, tx);
    PutsLater(cfg, s0, run, more, longer, tx);
  }

  lemma CarriedPuts(cfg: Settings, s0: State, run: seq<Event>, s: State, a: AttemptId, job: Job, pc: Pc, k: Token)
    returns (longer: seq<Event>)
    requires Goes(cfg, s0, run, s, false) && Stands(s, a, job, pc) && CanShow(cfg, pc, k)
    requires k in s.documentSessions && s.documentSessions[k].tx == job.tx
    requires s.now - s.documentSessions[k].createdAt <= cfg.sessionTtlMs
    ensures PutsAgain(cfg, s0, run, longer, job.tx)
    decreases if pc.Auditing? then 2 else if pc.Recording? then 1 else 0
  {
    hide Enabled, Apply, Goes, Stands, PutsAgain, Revealed, Storable;
    var more, t;
    if pc.Auditing? {
      more, t := Audits(cfg, s0, run, s, false, a, job, pc.v, Some(k));
      longer := CarriedPuts(cfg, s0, more, t, a, job, Recording(pc.v, Some(k)), k);
    } else if pc.Recording? {
      RecordStands(cfg, s, a, job, pc.v, Some(k));
      more, t := GoOn(cfg, s0, run, s, false, Work(a, WriteRecord));
      longer := CarriedPuts(cfg, s0, more, t, a, job, Dispatching(pc.v, Some(k), 0), k);
    } else {
      SendShows(cfg, s, a, job, pc.v, k, pc.tries);
      more, t := GoOn(cfg, s0, run, s, false, Work(a, Send(true)));
      longer := RevealedPuts(cfg, s0, more, t, k, job.tx);
    }
    PutsLater(cfg, s0, run, more, longer, job.tx);
  }

  /** The answer in the middle of the grey zone. */
  lemma GreyAnswer(c: Config)
    requires GreyPossible(c)
    ensures var v := FaceOutcome(AgeResult(c.cutoffAge, c.livenessThreshold), c);
            v.status == DocumentoRequerido && Storable(v)
  {
  }

  lemma IssuingPuts(cfg: Settings, s0: State, run: seq<Event>, s: State, a: AttemptId, job: Job, pc: Pc)
    returns (longer: seq<Event>)
    requires Goes(cfg, s0, run, s, false) && Stands(s, a, job, pc) && CanIssue(cfg, pc) && job.phase.FacePhase?
    requires cfg.sessionTtlMs >= 0 && cfg.retries >= 0
    ensures PutsAgain(cfg, s0, run, longer, job.tx)
    decreases if pc.Acquiring? then 3 else if pc.Scoping? then 2 else if pc.Analyzing? then 1 else 0
  {
    hide Goes, Stands, PutsAgain, Storable, FaceConfig, GreyPossible, FaceOutcome;
    var more, t;
    if pc.Acquiring? {
      more, t := Acquires(cfg, s0, run, s, false, a, job, pc.gotAt);
      longer := IssuingPuts(cfg, s0, more, t, a, job, Scoping);
    } else if pc.Scoping? {
      more, t := ReadsTenant(cfg, s0, run, s, false, a, job, pc);
      longer := IssuingPuts(cfg, s0, more, t, a, job, Analyzing(FaceConfig(cfg.decision, 18)));
    } else if pc.Analyzing? {
      var r := AgeResult(pc.cfg.cutoffAge, pc.cfg.livenessThreshold);
      GreyAnswer(pc.cfg);
      more, t := Answers(cfg, s0, run, s, false, a, job, pc.cfg, r);
      longer := IssuingPuts(cfg, s0, more, t, a, job, Issuing(FaceOutcome(r, pc.cfg)));
    } else {
      var k;
      more, t, k := Issues(cfg, s0, run, s, false, a, job, pc.v);
      longer := CarriedPuts(cfg, s0, more, t, a, job, Auditing(pc.v, Some(k)), k);
    }
    PutsLater(cfg, s0, run, more, longer, job.tx);
  }

  lemma FramePuts(cfg: Settings, s0: State, run: seq<Event>, s: State, job: Job)
    returns (longer: seq<Event>)
    requires Goes(cfg, s0, run, s, false) && job.phase.FacePhase? && job in s.jobs && job.tx in s.trails
    requires cfg.sessionTtlMs >= 0 && cfg.retries >= 0 && GreyPossible(FaceConfig(cfg.decision, 18))
    requires Found(s, FrameRef(job.tx))
    ensures PutsAgain(cfg, s0, run, longer, job.tx)
  {
    hide Goes, Stands, PutsAgain, FaceConfig, GreyPossible, Found;
    var more, t, a := ReadsImages(cfg, s0, run, s, false, job);
    longer := IssuingPuts(cfg, s0, more, t, a, job, Acquiring(t.now));
    PutsLater(cfg, s0, run, more, longer, job.tx);
  }

  lemma ReturnPuts(cfg: Settings, s0: State, run: seq<Event>, s: State, tx: TxId)
    returns (longer: seq<Event>)
    requires Goes(cfg, s0, run, s, false) && Rooted(s) && Job(tx, FacePhase) in s.jobs && CanReturn(cfg, s, tx)
    ensures PutsAgain(cfg, s0, run, longer, tx)
  {
    hide Goes, PutsAgain, Rooted, WillPut, CanShow, CanIssue, GreyPossible, Found, Revealed;
    if Submitting(cfg, s, tx) {
      var r :| r in s.requests && WillPut(cfg, s.now, s.requests[r], tx);
      longer := SubmittingPuts(cfg, s0, run, s, r, tx);
    } else if Presentable(cfg, s, tx) {
      var k :| k in s.documentSessions && s.documentSessions[k].tx == tx
               && s.now - s.documentSessions[k].createdAt <= cfg.sessionTtlMs && Shown(cfg, s, tx, k);
      if Revealed(s, tx, k) {
        longer := RevealedPuts(cfg, s0, run, s, k, tx);
      } else {
        var a :| a in s.attempts && s.attempts[a].job.tx == tx && CanShow(cfg, s.attempts[a].pc, k);
        AttemptAt(s, a);
        longer := CarriedPuts(cfg, s0, run, s, a, s.attempts[a].job, s.attempts[a].pc, k);
      }
    } else if Found(s, FrameRef(tx)) && GreyPossible(FaceConfig(cfg.decision, 18)) {
      JobOpened(s, Job(tx, FacePhase));
      longer := FramePuts(cfg, s0, run, s, Job(tx, FacePhase));
    } else {
      var a :| a in s.attempts && s.attempts[a].job == Job(tx, FacePhase) && CanIssue(cfg, s.attempts[a].pc);
      AttemptAt(s, a);
      longer := IssuingPuts(cfg, s0, run, s, a, s.attempts[a].job, s.attempts[a].pc);
    }
  }

  lemma AttemptAt(s: State, a: AttemptId)
    requires Rooted(s) && a in s.attempts
    ensures At(s, a)
  {
    assert AttemptRooted(s, s.attempts[a]);
    assert JobRooted(s, s.attempts[a].job);
  }

  lemma JobOpened(s: State, job: Job)
    requires Rooted(s) && job in s.jobs
    ensures job.tx in s.trails
  {
    assert JobRooted(s, job);
  }

  // ----- nothing else leads there -----

  /** Every token issued was drawn. */
  ghost predicate Drawn(s: State) {
    forall tx, k | tx in s.trails && k in s.trails[tx].issued :: k in s.tokens
  }

  lemma StepDrawn(cfg: Settings, s: State, e: Event)
    requires Drawn(s) && Enabled(cfg, s, e)
    ensures Drawn(Apply(cfg, s, e))
  {
    match e
    case Http(r, h) => HttpDrawn(cfg, s, r, h);
    case Work(a, w) => if w.IssueToken? { IssueDrawn(s, a, w.token); } else { WorkDrawn(cfg, s, a, w); }
    case _ =>
  }

  lemma HttpDrawn(cfg: Settings, s: State, r: RequestId, h: HttpEvent)
    requires Drawn(s) && HttpEnabled(cfg, s, r, h)
    ensures Drawn(HttpApply(cfg, s, r, h))
  {
  }

  lemma IssueDrawn(s: State, a: AttemptId, k: Token)
    requires Drawn(s) && At(s, a) && s.attempts[a].pc.Issuing?
    ensures Drawn(DoIssue(s, a, k))
  {
  }

  lemma WorkDrawn(cfg: Settings, s: State, a: AttemptId, w: WorkEvent)
    requires Drawn(s) && WorkEnabled(cfg, s, a, w) && !w.IssueToken?
    ensures Drawn(WorkApply(cfg, s, a, w))
  {
    WorkLeavesDesk(cfg, s, a, w);
    IssuedStays(cfg, s, a, w);
    hide WorkApply, WorkEnabled;
  }

  ghost predicate SameIssued(s: State, t: State) {
    forall tx | tx in t.trails :: tx in s.trails && t.trails[tx].issued == s.trails[tx].issued
  }

  lemma IssuedStays(cfg: Settings, s: State, a: AttemptId, w: WorkEvent)
    requires WorkEnabled(cfg, s, a, w) && !w.IssueToken?
    ensures SameIssued(s, WorkApply(cfg, s, a, w))
  {
    hide AfterTenant, DecideVerification, Found, Storable;
    if WritesTrail(w) { WriteIssued(cfg, s, a, w); }
  }

  lemma WriteIssued(cfg: Settings, s: State, a: AttemptId, w: WorkEvent)
    requires WorkEnabled(cfg, s, a, w) && (w.WriteAudit? || w.WriteRecord? || w.Send?)
    ensures SameIssued(s, WorkApply(cfg, s, a, w))
  {
    hide Storable;
    match w
    case WriteAudit => assert SameIssued(s, DoAudit(s, a));
    case WriteRecord => assert SameIssued(s, DoRecord(s, a));
    case Send(ok) => assert SameIssued(s, DoSend(cfg, s, a, ok));
    case _ =>
  }

  lemma {:induction false} RunDrawn(cfg: Settings, s0: State, run: seq<Event>)
    requires FromStart(s0) && Legal(cfg, s0, run)
    ensures Drawn(Final(cfg, s0, run))
    decreases |run|
  {
    if run != [] {
      RunDrawn(cfg, s0, Front(run));
      hide Drawn, Enabled, Apply;
      StepDrawn(cfg, Final(cfg, s0, Front(run)), run[|run| - 1]);
    }
  }

  ghost predicate Known(s: State) {
    Rooted(s) && Truthful(s) && Drawn(s)
  }

  /** A token that was never drawn is shown nowhere. */
  lemma UndrawnUnseen(s: State, tx: TxId, k: Token)
    requires Known(s) && k !in s.tokens
    ensures !Revealed(s, tx, k)
    ensures forall cfg, b | b in s.attempts && s.attempts[b].job.tx == tx :: !CanShow(cfg, s.attempts[b].pc, k)
  {
    if tx in s.trails {
      var t := s.trails[tx];
      assert TrailTrue(tx, t);
      assert forall i | 0 <= i < |t.sent| :: SaysWhatWasWritten(t, tx, t.sent[i]);
    }
    forall cfg, b | b in s.attempts && s.attempts[b].job.tx == tx ensures !CanShow(cfg, s.attempts[b].pc, k) {
      assert AttemptTrue(s, s.attempts[b]);
    }
  }

  /** Time passes, or something else happens. */
  lemma QuietBack(cfg: Settings, s: State, t: State, tx: TxId)
    requires t.requests == s.requests && t.documentSessions == s.documentSessions && t.trails == s.trails
    requires t.attempts == s.attempts && t.store == s.store && s.now <= t.now && CanReturn(cfg, t, tx)
    ensures CanReturn(cfg, s, tx)
  {
    hide CanShow, CanIssue, GreyPossible;
    if Submitting(cfg, t, tx) {
      var r :| r in t.requests && WillPut(cfg, t.now, t.requests[r], tx);
      assert WillPut(cfg, s.now, s.requests[r], tx);
    } else if Presentable(cfg, t, tx) {
      var k :| k in t.documentSessions && t.documentSessions[k].tx == tx
               && t.now - t.documentSessions[k].createdAt <= cfg.sessionTtlMs && Shown(cfg, t, tx, k);
      assert Shown(cfg, s, tx, k);
    }
  }

  // ----- a request handler -----

  lemma HttpBack(cfg: Settings, s: State, r: RequestId, h: HttpEvent, tx: TxId)
    requires Rooted(s) && HttpEnabled(cfg, s, r, h) && Job(tx, FacePhase) in s.jobs
    requires CanReturn(cfg, HttpApply(cfg, s, r, h), tx)
    ensures CanReturn(cfg, s, tx)
  {
    var t := HttpApply(cfg, s, r, h);
    assert JobRooted(s, Job(tx, FacePhase));
    if r in s.requests { assert RequestRooted(s, r, s.requests[r]); }
    hide Rooted;
    HttpKeepsShown(cfg, s, r, h, tx);
    if Submitting(cfg, t, tx) {
      var q :| q in t.requests && WillPut(cfg, t.now, t.requests[q], tx);
      RequestBack(cfg, s, r, h, q, tx);
    } else {
      hide HttpApply, HttpEnabled;
      ShownBack(cfg, s, t, tx);
    }
  }

  /** Trails of a transaction already opened, attempts and clock stay; sessions only go; and the
      frame of a queued job is not put. */
  ghost predicate ShowsNoMore(s: State, t: State, tx: TxId) {
    && t.now == s.now && t.attempts == s.attempts && tx in s.trails && tx in t.trails
    && t.trails[tx].sent == s.trails[tx].sent
    && (forall k | k in t.documentSessions :: k in s.documentSessions && t.documentSessions[k] == s.documentSessions[k])
    && (Found(t, FrameRef(tx)) ==> Found(s, FrameRef(tx)))
  }

  lemma HttpKeepsShown(cfg: Settings, s: State, r: RequestId, h: HttpEvent, tx: TxId)
    requires HttpEnabled(cfg, s, r, h) && tx in s.trails && (h.PutFrame? ==> s.requests[r].tx != tx)
    ensures ShowsNoMore(s, HttpApply(cfg, s, r, h), tx)
  {
  }

  lemma RequestBack(cfg: Settings, s: State, r: RequestId, h: HttpEvent, q: RequestId, tx: TxId)
    requires HttpEnabled(cfg, s, r, h) && q in HttpApply(cfg, s, r, h).requests
    requires WillPut(cfg, s.now, HttpApply(cfg, s, r, h).requests[q], tx)
    ensures CanReturn(cfg, s, tx)
  {
    if q != r {
      assert q in s.requests && WillPut(cfg, s.now, s.requests[q], tx);
    } else if h.TakeDocumentSession? {
      assert Shown(cfg, s, tx, h.token);
      assert Presentable(cfg, s, tx);
    } else {
      assert q in s.requests && WillPut(cfg, s.now, s.requests[q], tx);
    }
  }

  lemma ShownBack(cfg: Settings, s: State, t: State, tx: TxId)
    requires ShowsNoMore(s, t, tx) && (Presentable(cfg, t, tx) || Issuable(cfg, t, tx))
    ensures CanReturn(cfg, s, tx)
  {
    hide CanShow, CanIssue, GreyPossible, Found;
    if Presentable(cfg, t, tx) {
      var k :| k in t.documentSessions && t.documentSessions[k].tx == tx
               && t.now - t.documentSessions[k].createdAt <= cfg.sessionTtlMs && Shown(cfg, t, tx, k);
      assert Shown(cfg, s, tx, k);
    }
  }

  // ----- a job processor -----

  /** What a step other than IssueToken brings: it shows or comes to issue only from where it could. */
  ghost predicate ShowsFrom(cfg: Settings, s: State, t: State, a: AttemptId, tx: TxId) {
    && a in t.attempts && t.attempts == s.attempts[a := t.attempts[a]] && t.now == s.now && t.requests == s.requests
    && t.documentSessions == s.documentSessions && (Found(t, FrameRef(tx)) ==> Found(s, FrameRef(tx)))
    && (a in s.attempts ==> t.attempts[a].job == s.attempts[a].job)
    && (forall k | CanShow(cfg, t.attempts[a].pc, k) :: a in s.attempts && CanShow(cfg, s.attempts[a].pc, k))
    && (forall k | Revealed(t, tx, k) ::
          Revealed(s, tx, k) || (a in s.attempts && s.attempts[a].job.tx == tx && CanShow(cfg, s.attempts[a].pc, k)))
    && (t.attempts[a].job == Job(tx, FacePhase) && CanIssue(cfg, t.attempts[a].pc) ==>
          (a in s.attempts && CanIssue(cfg, s.attempts[a].pc))
          || (Found(s, FrameRef(tx)) && GreyPossible(FaceConfig(cfg.decision, 18))))
  }

  lemma WorkedBack(cfg: Settings, s: State, t: State, a: AttemptId, tx: TxId)
    requires ShowsFrom(cfg, s, t, a, tx) && CanReturn(cfg, t, tx)
    ensures CanReturn(cfg, s, tx)
  {
    hide CanShow, CanIssue, GreyPossible, Found, Revealed, WillPut;
    if Presentable(cfg, t, tx) {
      var k :| k in t.documentSessions && t.documentSessions[k].tx == tx
               && t.now - t.documentSessions[k].createdAt <= cfg.sessionTtlMs && Shown(cfg, t, tx, k);
      assert Shown(cfg, s, tx, k);
    }
  }

  lemma WriteShows(cfg: Settings, s: State, a: AttemptId, w: WorkEvent, tx: TxId)
    requires WorkEnabled(cfg, s, a, w) && (w.WriteAudit? || w.WriteRecord? || w.Send?)
    ensures ShowsFrom(cfg, s, WorkApply(cfg, s, a, w), a, tx)
  {
    hide ShowsFrom, Storable;
    match w
    case WriteAudit => AuditShows(cfg, s, a, tx);
    case WriteRecord => RecordShows(cfg, s, a, tx);
    case Send(ok) => SendsShow(cfg, s, a, ok, tx);
    case _ =>
  }

  lemma AuditShows(cfg: Settings, s: State, a: AttemptId, tx: TxId)
    requires At(s, a) && s.attempts[a].pc.Auditing?
    ensures ShowsFrom(cfg, s, DoAudit(s, a), a, tx)
  {
    hide Storable, GreyPossible;
  }

  lemma RecordShows(cfg: Settings, s: State, a: AttemptId, tx: TxId)
    requires At(s, a) && s.attempts[a].pc.Recording? && Storable(s.attempts[a].pc.v)
    ensures ShowsFrom(cfg, s, DoRecord(s, a), a, tx)
  {
    hide Storable, GreyPossible;
  }

  lemma SendsShow(cfg: Settings, s: State, a: AttemptId, ok: bool, tx: TxId)
    requires At(s, a) && s.attempts[a].pc.Dispatching? && s.attempts[a].pc.tries <= cfg.retries
    ensures ShowsFrom(cfg, s, DoSend(cfg, s, a, ok), a, tx)
  {
    hide Storable, GreyPossible;
  }

  lemma QuietShows(cfg: Settings, s: State, a: AttemptId, w: WorkEvent, tx: TxId)
    requires WorkEnabled(cfg, s, a, w) && !WritesTrail(w) && (a in s.attempts ==> PhaseFits(s.attempts[a]))
    ensures ShowsFrom(cfg, s, WorkApply(cfg, s, a, w), a, tx)
  {
    hide ShowsFrom, AfterTenant, GreyPossible;
    match w
    case Start(job) => MoveShows(cfg, s, DoStart(s, a, job), a, tx);
    case GetMedia => MoveShows(cfg, s, DoGet(s, a), a, tx);
    case GetSelfie => MoveShows(cfg, s, DoGetSelfie(s, a), a, tx);
    case Acquire => MoveShows(cfg, s, DoAcquire(cfg, s, a), a, tx);
    case ReadTenant => TenantShows(cfg, s, a, tx);
    case Analyze(result) => AnalyzeShows(cfg, s, a, result, tx);
    case VerifyDocument(check) => MoveShows(cfg, s, DoVerify(s, a, check), a, tx);
    case _ => EndShows(cfg, s, a, w, tx);
  }

  /** The attempt moves, and the store may lose entries. */
  lemma MoveShows(cfg: Settings, s: State, t: State, a: AttemptId, tx: TxId)
    requires a in t.attempts && t.attempts == s.attempts[a := t.attempts[a]] && t.now == s.now
    requires t.requests == s.requests && t.documentSessions == s.documentSessions && t.trails == s.trails
    requires a in s.attempts ==> t.attempts[a].job == s.attempts[a].job
    requires forall ref | ref in t.store :: ref in s.store && t.store[ref] == s.store[ref]
    requires forall k :: !CanShow(cfg, t.attempts[a].pc, k)
    requires t.attempts[a].job == Job(tx, FacePhase) && CanIssue(cfg, t.attempts[a].pc) ==>
               (a in s.attempts && CanIssue(cfg, s.attempts[a].pc))
               || (Found(s, FrameRef(tx)) && GreyPossible(FaceConfig(cfg.decision, 18)))
    ensures ShowsFrom(cfg, s, t, a, tx)
  {
    hide CanShow, CanIssue, GreyPossible;
  }

  lemma EndShows(cfg: Settings, s: State, a: AttemptId, w: WorkEvent, tx: TxId)
    requires WorkEnabled(cfg, s, a, w)
    requires w.Throw? || w.Delete? || w.DeleteSelfie? || w.Discard? || w.DeleteFails? || w.Crash?
    ensures ShowsFrom(cfg, s, WorkApply(cfg, s, a, w), a, tx)
  {
    hide ShowsFrom, Found, GreyPossible;
    match w
    case Throw => OutShows(cfg, s, a, Deleting, tx);
    case DeleteFails => OutShows(cfg, s, a, Failed, tx);
    case Crash => OutShows(cfg, s, a, Dead, tx);
    case Delete => MoveShows(cfg, s, DoDelete(s, a), a, tx);
    case DeleteSelfie => MoveShows(cfg, s, DoDeleteSelfie(s, a), a, tx);
    case Discard(written) => MoveShows(cfg, s, DoDiscard(s, a, written), a, tx);
    case _ =>
  }

  lemma OutShows(cfg: Settings, s: State, a: AttemptId, pc: Pc, tx: TxId)
    requires a in s.attempts && Over(pc)
    ensures ShowsFrom(cfg, s, Goto(s, a, pc), a, tx)
  {
    hide ShowsFrom, Found, GreyPossible;
    MoveShows(cfg, s, Goto(s, a, pc), a, tx);
  }

  /** Whatever age the tenant requires, whether the zone can be hit depends on the margin alone. */
  lemma TenantShows(cfg: Settings, s: State, a: AttemptId, tx: TxId)
    requires WorkEnabled(cfg, s, a, ReadTenant)
    ensures ShowsFrom(cfg, s, WorkApply(cfg, s, a, ReadTenant), a, tx)
  {
    var t := DoReadTenant(cfg, s, a);
    assert WorkApply(cfg, s, a, ReadTenant) == t;
    assert s.attempts[a].pc.Scoping? && CanIssue(cfg, t.attempts[a].pc) ==> CanIssue(cfg, s.attempts[a].pc);
    assert forall k :: !CanShow(cfg, t.attempts[a].pc, k);
    hide ShowsFrom, AfterTenant, FaceConfig, GreyPossible, DecideDocument, AgeFromDocument;
    MoveShows(cfg, s, t, a, tx);
  }

  lemma AnalyzeShows(cfg: Settings, s: State, a: AttemptId, result: AgeResult, tx: TxId)
    requires At(s, a) && s.attempts[a].pc.Analyzing?
    ensures ShowsFrom(cfg, s, DoAnalyze(s, a, result), a, tx)
  {
    var t := DoAnalyze(s, a, result);
    assert CanIssue(cfg, t.attempts[a].pc) ==> CanIssue(cfg, s.attempts[a].pc);
    hide ShowsFrom, DecideVerification, GreyPossible;
    MoveShows(cfg, s, t, a, tx);
  }

  /** A token of the transaction that is drawn now could be issued before. */
  lemma IssueBack(cfg: Settings, s: State, a: AttemptId, k: Token, tx: TxId)
    requires Known(s) && WorkEnabled(cfg, s, a, IssueToken(k)) && PhaseFits(s.attempts[a])
    requires CanReturn(cfg, DoIssue(s, a, k), tx)
    ensures CanReturn(cfg, s, tx)
  {
    UndrawnUnseen(s, tx, k);
    hide Known, CanShow, Storable, GreyPossible;
    var t := DoIssue(s, a, k);
    if Submitting(cfg, t, tx) || Issuable(cfg, t, tx) {
      assert t.requests == s.requests && t.now == s.now && t.store == s.store;
      IssueBrings(cfg, s, a, k, tx);
    } else {
      var j :| j in t.documentSessions && t.documentSessions[j].tx == tx
               && t.now - t.documentSessions[j].createdAt <= cfg.sessionTtlMs && Shown(cfg, t, tx, j);
      IssuedShown(cfg, s, a, k, j, tx);
    }
  }

  lemma IssueBrings(cfg: Settings, s: State, a: AttemptId, k: Token, tx: TxId)
    requires At(s, a) && s.attempts[a].pc.Issuing?
    ensures Submitting(cfg, DoIssue(s, a, k), tx) ==> Submitting(cfg, s, tx)
    ensures Issuable(cfg, DoIssue(s, a, k), tx) ==> Issuable(cfg, s, tx)
  {
    hide GreyPossible, Storable, WillPut;
  }

  lemma IssuedShown(cfg: Settings, s: State, a: AttemptId, k: Token, j: Token, tx: TxId)
    requires WorkEnabled(cfg, s, a, IssueToken(k)) && PhaseFits(s.attempts[a])
    requires !Revealed(s, tx, k)
    requires forall b | b in s.attempts && s.attempts[b].job.tx == tx :: !CanShow(cfg, s.attempts[b].pc, k)
    requires var t := DoIssue(s, a, k);
             && j in t.documentSessions && t.documentSessions[j].tx == tx
             && t.now - t.documentSessions[j].createdAt <= cfg.sessionTtlMs && Shown(cfg, t, tx, j)
    ensures CanReturn(cfg, s, tx)
  {
    hide Storable, GreyPossible;
    var t := DoIssue(s, a, k);
    assert Revealed(t, tx, j) ==> Revealed(s, tx, j);
    if j == k {
      assert s.attempts[a].job == Job(tx, FacePhase) && CanIssue(cfg, s.attempts[a].pc);
      assert Issuable(cfg, s, tx);
    } else {
      assert Shown(cfg, s, tx, j);
      assert Presentable(cfg, s, tx);
    }
  }

  // ----- whole runs -----

  lemma WorkBack(cfg: Settings, s: State, a: AttemptId, w: WorkEvent, tx: TxId)
    requires Known(s) && WorkEnabled(cfg, s, a, w) && CanReturn(cfg, WorkApply(cfg, s, a, w), tx)
    ensures CanReturn(cfg, s, tx)
  {
    hide CanReturn, ShowsFrom, PhaseFits;
    if a in s.attempts { Fits(s, a); }
    hide Known;
    if w.IssueToken? {
      IssueBack(cfg, s, a, w.token, tx);
    } else {
      if WritesTrail(w) { WriteShows(cfg, s, a, w, tx); } else { QuietShows(cfg, s, a, w, tx); }
      hide WorkApply, WorkEnabled;
      WorkedBack(cfg, s, WorkApply(cfg, s, a, w), a, tx);
    }
  }

  lemma Fits(s: State, a: AttemptId)
    requires Known(s) && a in s.attempts
    ensures PhaseFits(s.attempts[a])
  {
    assert AttemptRooted(s, s.attempts[a]);
  }

  lemma StepBack(cfg: Settings, s: State, e: Event, tx: TxId)
    requires Known(s) && Enabled(cfg, s, e) && Job(tx, FacePhase) in s.jobs && CanReturn(cfg, Apply(cfg, s, e), tx)
    ensures CanReturn(cfg, s, tx)
  {
    hide CanReturn, WorkApply, WorkEnabled, HttpApply, HttpEnabled;
    match e
    case Http(r, h) => HttpBack(cfg, s, r, h, tx);
    case Work(a, w) => WorkBack(cfg, s, a, w, tx);
    case _ => QuietBack(cfg, s, Apply(cfg, s, e), tx);
  }

  /** The images are gone and cannot come back. */
  ghost predicate GoneForEver(cfg: Settings, s: State, tx: TxId) {
    Job(tx, FacePhase) in s.jobs && ImagesGone(s, tx) && !CanReturn(cfg, s, tx)
  }

  lemma PutsFromHere(cfg: Settings, s: State, e: Event, tx: TxId)
    requires Enabled(cfg, s, e) && ImagesGone(s, tx) && !ImagesGone(Apply(cfg, s, e), tx)
    ensures Submitting(cfg, s, tx)
  {
    match e
    case Http(r, h) => HttpPutsFromHere(cfg, s, r, h, tx);
    case Work(a, w) =>
      StepWorksOn(cfg, s, a, w);
      hide WorkApply, WorkEnabled;
    case _ =>
  }

  lemma HttpPutsFromHere(cfg: Settings, s: State, r: RequestId, h: HttpEvent, tx: TxId)
    requires HttpEnabled(cfg, s, r, h) && ImagesGone(s, tx) && !ImagesGone(HttpApply(cfg, s, r, h), tx)
    ensures Submitting(cfg, s, tx)
  {
    assert r in s.requests && WillPut(cfg, s.now, s.requests[r], tx);
  }

  lemma {:induction false} GoneStays(cfg: Settings, s0: State, run: seq<Event>, k: nat, tx: TxId)
    requires FromStart(s0) && Legal(cfg, s0, run) && k <= |run| && Legal(cfg, s0, run[..k])
    requires GoneForEver(cfg, Final(cfg, s0, run[..k]), tx)
    ensures GoneForEver(cfg, Final(cfg, s0, run), tx)
    decreases |run|
  {
    hide Enabled, Apply, GoneForEver;
    if k == |run| {
      assert run[..k] == run;
    } else {
      assert Front(run)[..k] == run[..k];
      GoneStays(cfg, s0, Front(run), k, tx);
      RunKnown(cfg, s0, Front(run));
      hide Known;
      StepGone(cfg, Final(cfg, s0, Front(run)), run[|run| - 1], tx);
    }
  }

  lemma RunKnown(cfg: Settings, s0: State, run: seq<Event>)
    requires FromStart(s0) && Legal(cfg, s0, run)
    ensures Known(Final(cfg, s0, run))
  {
    RunRooted(cfg, s0, run);
    RunTruth(cfg, s0, run);
    RunDrawn(cfg, s0, run);
  }

  lemma StepGone(cfg: Settings, s: State, e: Event, tx: TxId)
    requires Known(s) && Enabled(cfg, s, e) && GoneForEver(cfg, s, tx)
    ensures GoneForEver(cfg, Apply(cfg, s, e), tx)
  {
    var t := Apply(cfg, s, e);
    StepProgress(cfg, s, e);
    hide Known, Enabled, Apply, Submitting, Presentable, Issuable, ImagesGone;
    if !ImagesGone(t, tx) { PutsFromHere(cfg, s, e, tx); }
    if CanReturn(cfg, t, tx) { StepBack(cfg, s, e, tx); }
  }

  /** Images that are gone can come back, in some legal continuation of a legal run, exactly when a
      request is under way, a session can be presented, or a token can be issued and shown. */
  lemma ReturnsExactly(cfg: Settings, s0: State, run: seq<Event>, tx: TxId)
    requires FromStart(s0) && Legal(cfg, s0, run) && Job(tx, FacePhase) in Final(cfg, s0, run).jobs
    requires ImagesGone(Final(cfg, s0, run), tx)
    ensures (exists longer :: PutsAgain(cfg, s0, run, longer, tx)) <==> CanReturn(cfg, Final(cfg, s0, run), tx)
  {
    hide CanReturn, ImagesGone;
    var s := Final(cfg, s0, run);
    if CanReturn(cfg, s, tx) {
      RunRooted(cfg, s0, run);
      hide Rooted;
      var longer := ReturnPuts(cfg, s0, run, s, tx);
    } else if longer :| PutsAgain(cfg, s0, run, longer, tx) {
      assert longer[..|run|] == run;
      GoneStays(cfg, s0, longer, |run|, tx);
    }
  }
}
