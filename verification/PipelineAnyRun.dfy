/** What holds in every legal run, however slow its participants are. */
module PipelineAnyRun {
  import opened Decision
  import opened Pipeline
  import opened PipelineWorkers
  import opened PipelineTheorems

  // ----- everything goes back to a queued face job of one tenant -----

  predicate JobRooted(s: State, job: Job)
    requires job in s.jobs
  {
    && job.tx in s.trails && s.jobs[job] == s.trails[job.tx].tenant
    && Job(job.tx, FacePhase) in s.jobs && FrameRef(job.tx) in s.puts
  }

  predicate RequestRooted(s: State, r: RequestId, q: Request) {
    match q
    case Admitted(tx, tenant) =>
      && tx in s.trails && s.trails[tx].request == r && s.trails[tx].tenant == tenant
      && FrameRef(tx) !in s.puts && Job(tx, FacePhase) !in s.jobs
    case Stored(tx, tenant) =>
      && tx in s.trails && s.trails[tx].request == r && s.trails[tx].tenant == tenant
      && FrameRef(tx) in s.puts && Job(tx, FacePhase) !in s.jobs
    case TookSession(_, _, _) => true
    case Closed => true
    case _ => q.tx in s.trails && s.trails[q.tx].tenant == q.tenant && Job(q.tx, FacePhase) in s.jobs
  }

  /** Each phase keeps to its own steps. */
  predicate PhaseFits(x: Attempt) {
    if x.job.phase.FacePhase? then
      !x.pc.GettingSelfie? && !x.pc.Verifying? && !x.pc.Deciding? && !x.pc.DeletingSelfie?
    else !x.pc.Scoping? && !x.pc.Analyzing? && !x.pc.Issuing?
  }

  predicate AttemptRooted(s: State, x: Attempt) {
    && x.job in s.jobs && PhaseFits(x)
    && (x.job.phase.FacePhase? && (x.pc.Discarding? || x.pc.Done?) ==> FrameRef(x.job.tx) !in s.store)
  }

  predicate SessionRooted(s: State, token: Token, d: DocumentSession) {
    && d.tx in s.trails && s.trails[d.tx].tenant == d.tenant && token in s.trails[d.tx].issued
    && Job(d.tx, FacePhase) in s.jobs
  }

  predicate TxRooted(s: State, tx: TxId) {
    && (FrameRef(tx) in s.store ==> FrameRef(tx) in s.puts)
    && (FrameRef(tx) in s.puts ==> tx in s.trails)
    && (Job(tx, FacePhase) in s.discards ==> Job(tx, FacePhase) in s.jobs && FrameRef(tx) !in s.store)
    && (tx in s.audit ==>
          tx in s.trails && s.audit[tx].tenant == s.trails[tx].tenant && Job(tx, FacePhase) in s.jobs)
  }

  ghost predicate Rooted(s: State) {
    && (forall job | job in s.jobs :: JobRooted(s, job))
    && (forall r | r in s.requests :: RequestRooted(s, r, s.requests[r]))
    && (forall a | a in s.attempts :: AttemptRooted(s, s.attempts[a]))
    && (forall token | token in s.documentSessions :: SessionRooted(s, token, s.documentSessions[token]))
    && (forall tx: TxId :: TxRooted(s, tx))
  }

  // ----- steps of a job processor -----

  /** What every step of attempt a leaves alone, and how it moves what it does not. */
  ghost predicate WorksOn(s: State, t: State, a: AttemptId) {
    && t.jobs == s.jobs && t.puts == s.puts && t.requests == s.requests
    && a in t.attempts && t.attempts == s.attempts[a := t.attempts[a]]
    && (forall tx | tx in s.trails :: tx in t.trails && Longer(s.trails[tx], t.trails[tx])
          && t.trails[tx].request == s.trails[tx].request)
    && t.trails.Keys == s.trails.Keys
    && (forall ref | ref in t.store :: ref in s.store)
    && (forall job | job in t.discards :: job in s.discards
          || (a in s.attempts && s.attempts[a].job == job && s.attempts[a].pc.Discarding?))
    && (forall tx | tx in t.audit :: (tx in s.audit && t.audit[tx] == s.audit[tx])
          || (At(s, a) && s.attempts[a].job.tx == tx && t.audit[tx].tenant == s.jobs[s.attempts[a].job]))
    && (forall k | k in t.documentSessions ::
          (k in s.documentSessions && t.documentSessions[k] == s.documentSessions[k])
          || (At(s, a) && t.documentSessions[k].tx == s.attempts[a].job.tx && t.documentSessions[k].tx in t.trails
              && t.documentSessions[k].tenant == s.jobs[s.attempts[a].job]
              && k in t.trails[t.documentSessions[k].tx].issued))
  }

  lemma IssueWorksOn(s: State, a: AttemptId, token: Token)
    requires At(s, a) && s.attempts[a].pc.Issuing?
    ensures WorksOn(s, DoIssue(s, a, token), a)
  {
  }

  lemma AuditWorksOn(s: State, a: AttemptId)
    requires At(s, a) && s.attempts[a].pc.Auditing?
    ensures WorksOn(s, DoAudit(s, a), a)
  {
  }

  lemma RecordWorksOn(s: State, a: AttemptId)
    requires At(s, a) && s.attempts[a].pc.Recording?
    ensures WorksOn(s, DoRecord(s, a), a)
  {
  }

  lemma SendWorksOn(cfg: Settings, s: State, a: AttemptId, ok: bool)
    requires At(s, a) && s.attempts[a].pc.Dispatching?
    ensures WorksOn(s, DoSend(cfg, s, a, ok), a)
  {
  }

  lemma StepWorksOn(cfg: Settings, s: State, a: AttemptId, w: WorkEvent)
    requires WorkEnabled(cfg, s, a, w)
    ensures WorksOn(s, WorkApply(cfg, s, a, w), a)
  {
    hide WorksOn, Storable;
    match w
    case IssueToken(token) => IssueWorksOn(s, a, token);
    case WriteAudit => AuditWorksOn(s, a);
    case WriteRecord => RecordWorksOn(s, a);
    case Send(ok) => SendWorksOn(cfg, s, a, ok);
    case _ => QuietWorksOn(cfg, s, a, w);
  }

  /** Steps that write no row: the attempt moves, entries may go, a discard row may come. */
  lemma MoveWorksOn(s: State, t: State, a: AttemptId)
    requires a in t.attempts && t.attempts == s.attempts[a := t.attempts[a]]
    requires t.jobs == s.jobs && t.puts == s.puts && t.requests == s.requests && t.trails == s.trails
    requires t.audit == s.audit && t.documentSessions == s.documentSessions
    requires forall ref | ref in t.store :: ref in s.store
    requires forall job | job in t.discards :: job in s.discards
               || (a in s.attempts && s.attempts[a].job == job && s.attempts[a].pc.Discarding?)
    ensures WorksOn(s, t, a)
  {
  }

  lemma QuietWorksOn(cfg: Settings, s: State, a: AttemptId, w: WorkEvent)
    requires WorkEnabled(cfg, s, a, w) && !WritesTrail(w)
    ensures WorksOn(s, WorkApply(cfg, s, a, w), a)
  {
    hide AfterTenant, DecideVerification, WorksOn;
    if w.Start? {
      MoveWorksOn(s, DoStart(s, a, w.job), a);
    } else if GoesOn(w) {
      GoingWorksOn(cfg, s, a, w);
    } else {
      match w
      case Acquire => MoveWorksOn(s, DoAcquire(cfg, s, a), a);
      case Throw => MoveWorksOn(s, Goto(s, a, Deleting), a);
      case Delete => MoveWorksOn(s, DoDelete(s, a), a);
      case DeleteSelfie => MoveWorksOn(s, DoDeleteSelfie(s, a), a);
      case Discard(written) => MoveWorksOn(s, DoDiscard(s, a, written), a);
      case DeleteFails => MoveWorksOn(s, Goto(s, a, Failed), a);
      case Crash => MoveWorksOn(s, Goto(s, a, Dead), a);
      case _ =>
    }
  }

  lemma GoingWorksOn(cfg: Settings, s: State, a: AttemptId, w: WorkEvent)
    requires WorkEnabled(cfg, s, a, w) && GoesOn(w)
    ensures WorksOn(s, WorkApply(cfg, s, a, w), a)
  {
    hide AfterTenant, DecideVerification, WorksOn, Found;
    match w
    case GetMedia => MoveWorksOn(s, DoGet(s, a), a);
    case GetSelfie => MoveWorksOn(s, DoGetSelfie(s, a), a);
    case ReadTenant => MoveWorksOn(s, DoReadTenant(cfg, s, a), a);
    case Analyze(result) => MoveWorksOn(s, DoAnalyze(s, a, result), a);
    case VerifyDocument(check) => MoveWorksOn(s, DoVerify(s, a, check), a);
    case _ =>
  }

  lemma WriteMovesOn(cfg: Settings, s: State, a: AttemptId, w: WorkEvent)
    requires WorkEnabled(cfg, s, a, w) && WritesTrail(w)
    ensures var t := WorkApply(cfg, s, a, w);
            && a in t.attempts && t.attempts[a].job == s.attempts[a].job && t.jobs == s.jobs
            && var pc := t.attempts[a].pc; pc.Auditing? || pc.Recording? || pc.Dispatching? || pc.Deleting?
  {
    hide Storable;
    match w
    case IssueToken(token) => assert WorkApply(cfg, s, a, w) == DoIssue(s, a, token);
    case WriteAudit => assert WorkApply(cfg, s, a, w) == DoAudit(s, a);
    case WriteRecord => assert WorkApply(cfg, s, a, w) == DoRecord(s, a);
    case Send(ok) => assert WorkApply(cfg, s, a, w) == DoSend(cfg, s, a, ok);
    case _ =>
  }

  lemma AttemptStaysRooted(cfg: Settings, s: State, a: AttemptId, w: WorkEvent)
    requires WorkEnabled(cfg, s, a, w) && (!w.Start? ==> AttemptRooted(s, s.attempts[a]))
    ensures var t := WorkApply(cfg, s, a, w); a in t.attempts && AttemptRooted(t, t.attempts[a])
  {
    if WritesTrail(w) { WriteMovesOn(cfg, s, a, w); } else { QuietStaysRooted(cfg, s, a, w); }
    hide WorkApply, WorkEnabled;
  }

  lemma QuietStaysRooted(cfg: Settings, s: State, a: AttemptId, w: WorkEvent)
    requires WorkEnabled(cfg, s, a, w) && !WritesTrail(w) && (!w.Start? ==> AttemptRooted(s, s.attempts[a]))
    ensures var t := WorkApply(cfg, s, a, w); a in t.attempts && AttemptRooted(t, t.attempts[a])
  {
    hide DecideVerification, FaceConfig, DocumentCutoff, DecideDocument, AgeFromDocument, Found;
  }

  lemma WorkKeepsRooted(cfg: Settings, s: State, a: AttemptId, w: WorkEvent)
    requires Rooted(s) && WorkEnabled(cfg, s, a, w)
    ensures Rooted(WorkApply(cfg, s, a, w))
  {
    AttemptStaysRooted(cfg, s, a, w);
    StepWorksOn(cfg, s, a, w);
    var t := WorkApply(cfg, s, a, w);
    DiscardErased(cfg, s, a, w);
    hide WorkApply, WorkEnabled;
    WorkedRooted(s, t, a);
  }

  lemma DiscardErased(cfg: Settings, s: State, a: AttemptId, w: WorkEvent)
    requires Rooted(s) && WorkEnabled(cfg, s, a, w)
    ensures forall tx: TxId | Job(tx, FacePhase) in WorkApply(cfg, s, a, w).discards ::
              Job(tx, FacePhase) in s.jobs && FrameRef(tx) !in WorkApply(cfg, s, a, w).store
  {
    StepWorksOn(cfg, s, a, w);
    hide WorkApply, WorkEnabled;
    var t := WorkApply(cfg, s, a, w);
    forall tx: TxId | Job(tx, FacePhase) in t.discards
      ensures Job(tx, FacePhase) in s.jobs && FrameRef(tx) !in t.store {
      assert TxRooted(s, tx);
      if Job(tx, FacePhase) !in s.discards { assert AttemptRooted(s, s.attempts[a]); }
    }
  }

  lemma WorkedTables(s: State, t: State, a: AttemptId)
    requires Rooted(s) && WorksOn(s, t, a)
    ensures forall job | job in t.jobs :: JobRooted(t, job)
    ensures forall r | r in t.requests :: RequestRooted(t, r, t.requests[r])
    ensures forall b | b in t.attempts && b != a :: AttemptRooted(t, t.attempts[b])
  {
    forall job | job in t.jobs ensures JobRooted(t, job) { assert JobRooted(s, job); }
    forall r | r in t.requests ensures RequestRooted(t, r, t.requests[r]) {
      assert RequestRooted(s, r, s.requests[r]);
    }
    forall b | b in t.attempts && b != a ensures AttemptRooted(t, t.attempts[b]) {
      assert AttemptRooted(s, s.attempts[b]);
    }
  }

  lemma WorkedSessions(s: State, t: State, a: AttemptId)
    requires Rooted(s) && WorksOn(s, t, a)
    ensures forall k | k in t.documentSessions :: SessionRooted(t, k, t.documentSessions[k])
  {
    hide RequestRooted, AttemptRooted, TxRooted;
    forall k | k in t.documentSessions ensures SessionRooted(t, k, t.documentSessions[k]) {
      if k in s.documentSessions && t.documentSessions[k] == s.documentSessions[k] {
        assert SessionRooted(s, k, s.documentSessions[k]);
      } else {
        assert JobRooted(s, s.attempts[a].job);
      }
    }
  }

  lemma WorkedRooted(s: State, t: State, a: AttemptId)
    requires Rooted(s) && WorksOn(s, t, a) && AttemptRooted(t, t.attempts[a])
    requires forall tx: TxId | Job(tx, FacePhase) in t.discards ::
               Job(tx, FacePhase) in s.jobs && FrameRef(tx) !in t.store
    ensures Rooted(t)
  {
    WorkedTables(s, t, a);
    WorkedSessions(s, t, a);
    hide RequestRooted, AttemptRooted, SessionRooted;
    forall tx: TxId ensures TxRooted(t, tx) {
      assert TxRooted(s, tx);
      if At(s, a) && s.attempts[a].job.tx == tx { assert JobRooted(s, s.attempts[a].job); }
    }
  }

  // ----- steps of a request handler -----

  predicate Fresh(q: Request) {
    q.Admitted? || q.Stored?
  }

  /** A step of request r on transaction tx. */
  ghost predicate Serves(s: State, t: State, r: RequestId, tx: TxId) {
    && r in t.requests && t.requests == s.requests[r := t.requests[r]]
    && t.attempts == s.attempts && t.audit == s.audit && t.discards == s.discards
    && (forall x | x in s.trails :: x in t.trails && t.trails[x].tenant == s.trails[x].tenant
          && t.trails[x].request == s.trails[x].request && t.trails[x].issued == s.trails[x].issued)
    && (forall job | job in s.jobs :: job in t.jobs && t.jobs[job] == s.jobs[job])
    && (forall job | job in t.jobs && job !in s.jobs :: job.tx == tx)
    && (forall ref | ref in s.puts :: ref in t.puts) && (forall ref | ref in t.puts && ref !in s.puts :: ref.tx == tx)
    && (forall ref | ref in t.store && ref !in s.store :: ref in t.puts && ref.tx == tx
          && (ref.FrameRef? ==> ref !in s.puts))
    && (forall k | k in t.documentSessions :: k in s.documentSessions && t.documentSessions[k] == s.documentSessions[k])
  }

  /** Whoever else is still submitting a frame submits it for another transaction, unless the
      step concerns no frame. */
  ghost predicate FrameAlone(s: State, t: State, r: RequestId, tx: TxId) {
    || ((FrameRef(tx) in t.puts <==> FrameRef(tx) in s.puts)
        && (Job(tx, FacePhase) in t.jobs <==> Job(tx, FacePhase) in s.jobs))
    || forall q | q in s.requests && q != r && Fresh(s.requests[q]) :: s.requests[q].tx != tx
  }

  lemma ServedRooted(s: State, t: State, r: RequestId, tx: TxId)
    requires Rooted(s) && Serves(s, t, r, tx) && FrameAlone(s, t, r, tx)
    requires RequestRooted(t, r, t.requests[r]) && TxRooted(t, tx)
    requires forall job | job in t.jobs && job !in s.jobs :: JobRooted(t, job)
    ensures Rooted(t)
  {
    forall job | job in t.jobs ensures JobRooted(t, job) { if job in s.jobs { assert JobRooted(s, job); } }
    forall q | q in t.requests ensures RequestRooted(t, q, t.requests[q]) {
      if q != r { assert RequestRooted(s, q, s.requests[q]); }
    }
    forall b | b in t.attempts ensures AttemptRooted(t, t.attempts[b]) {
      assert AttemptRooted(s, s.attempts[b]);
      assert JobRooted(s, s.attempts[b].job);
    }
    forall k | k in t.documentSessions ensures SessionRooted(t, k, t.documentSessions[k]) {
      assert SessionRooted(s, k, s.documentSessions[k]);
    }
    forall x: TxId ensures TxRooted(t, x) { assert TxRooted(s, x); }
  }

  lemma HttpKeepsRooted(cfg: Settings, s: State, r: RequestId, h: HttpEvent)
    requires Rooted(s) && HttpEnabled(cfg, s, r, h)
    ensures Rooted(HttpApply(cfg, s, r, h))
  {
    if h.AdmitDocument? || h.PutDocument? || h.PutSelfie? { ImagesRooted(cfg, s, r, h); }
    hide Rooted, DoAdmit, DoPutFrame, DoEnqueueFace, DoTakeDocumentSession, DoEnqueueDocument;
    hide DoAdmitDocument, DoPutDocument, DoPutSelfie;
    match h
    case TakeSession(token) => ClosedRooted(s, DoTakeSession(s, r, token), r);
    case Admit(tx) => AdmitRooted(s, r, tx);
    case PutFrame(m) => PutFrameRooted(cfg, s, r, m);
    case EnqueueFace => EnqueueFaceRooted(s, r);
    case TakeDocumentSession(token) => TakeRooted(s, r, token);
    case EnqueueDocument => EnqueueDocumentRooted(s, r);
    case Reject => ClosedRooted(s, SetRequest(s, r, Closed), r);
    case _ =>
  }

  lemma ImagesRooted(cfg: Settings, s: State, r: RequestId, h: HttpEvent)
    requires Rooted(s) && HttpEnabled(cfg, s, r, h) && (h.AdmitDocument? || h.PutDocument? || h.PutSelfie?)
    ensures Rooted(HttpApply(cfg, s, r, h))
  {
    hide Rooted;
    match h
    case AdmitDocument => DocumentRooted(s, DoAdmitDocument(s, r), r, DocumentRef(s.requests[r].tx));
    case PutDocument(m) => DocumentRooted(s, DoPutDocument(cfg, s, r, m), r, DocumentRef(s.requests[r].tx));
    case PutSelfie(m) => DocumentRooted(s, DoPutSelfie(cfg, s, r, m), r, SelfieRef(s.requests[r].tx));
    case _ =>
  }

  /** The request touches no transaction. */
  lemma ClosedRooted(s: State, t: State, r: RequestId)
    requires Rooted(s) && r in t.requests && (t.requests[r].Closed? || t.requests[r].TookSession?)
    requires t == s.(requests := s.requests[r := t.requests[r]], sessions := t.sessions, consumed := t.consumed)
    ensures Rooted(t)
  {
    assert TxRooted(s, 0);
    ServedRooted(s, t, r, 0);
  }

  lemma AdmitRooted(s: State, r: RequestId, tx: TxId)
    requires Rooted(s) && r in s.requests && s.requests[r].TookSession? && tx !in s.trails
    ensures Rooted(DoAdmit(s, r, tx))
  {
    var t := DoAdmit(s, r, tx);
    assert TxRooted(s, tx);
    assert forall job | job in s.jobs :: JobRooted(s, job);
    forall q | q in s.requests && q != r && Fresh(s.requests[q]) ensures s.requests[q].tx != tx {
      assert RequestRooted(s, q, s.requests[q]);
    }
    ServedRooted(s, t, r, tx);
  }

  lemma PutFrameRooted(cfg: Settings, s: State, r: RequestId, m: Media)
    requires Rooted(s) && r in s.requests && s.requests[r].Admitted?
    ensures Rooted(DoPutFrame(cfg, s, r, m))
  {
    var t, tx := DoPutFrame(cfg, s, r, m), s.requests[r].tx;
    assert RequestRooted(s, r, s.requests[r]) && TxRooted(s, tx);
    forall q | q in s.requests && q != r && Fresh(s.requests[q]) ensures s.requests[q].tx != tx {
      assert RequestRooted(s, q, s.requests[q]);
    }
    ServedRooted(s, t, r, tx);
  }

  lemma EnqueueFaceRooted(s: State, r: RequestId)
    requires Rooted(s) && r in s.requests && s.requests[r].Stored?
    ensures Rooted(DoEnqueueFace(s, r))
  {
    var t, tx := DoEnqueueFace(s, r), s.requests[r].tx;
    assert RequestRooted(s, r, s.requests[r]) && TxRooted(s, tx);
    forall q | q in s.requests && q != r && Fresh(s.requests[q]) ensures s.requests[q].tx != tx {
      assert RequestRooted(s, q, s.requests[q]);
    }
    ServedRooted(s, t, r, tx);
  }

  lemma TakeRooted(s: State, r: RequestId, token: Token)
    requires Rooted(s) && r !in s.requests && token in s.documentSessions && s.documentSessions[token].tx in s.trails
    ensures Rooted(DoTakeDocumentSession(s, r, token))
  {
    var tx, t := s.documentSessions[token].tx, DoTakeDocumentSession(s, r, token);
    assert SessionRooted(s, token, s.documentSessions[token]) && TxRooted(s, tx);
    assert Serves(s, t, r, tx) by { TakeServes(s, r, token); }
    assert RequestRooted(t, r, t.requests[r]) && TxRooted(t, tx) && t.jobs == s.jobs && t.puts == s.puts;
    hide DoTakeDocumentSession, Rooted, Serves, TxRooted, RequestRooted;
    ServedRooted(s, t, r, tx);
  }

  lemma TakeServes(s: State, r: RequestId, token: Token)
    requires r !in s.requests && token in s.documentSessions && s.documentSessions[token].tx in s.trails
    ensures Serves(s, DoTakeDocumentSession(s, r, token), r, s.documentSessions[token].tx)
  {
  }

  /** A document request that goes on, with an image stored or without. */
  lemma DocumentRooted(s: State, t: State, r: RequestId, ref: Ref)
    requires Rooted(s) && r in s.requests && r in t.requests
    requires t == s.(requests := s.requests[r := t.requests[r]], store := t.store, puts := t.puts)
    requires !Fresh(s.requests[r]) && !s.requests[r].TookSession? && !s.requests[r].Closed?
    requires !Fresh(t.requests[r]) && !t.requests[r].TookSession? && !t.requests[r].Closed?
    requires t.requests[r].tx == s.requests[r].tx == ref.tx && t.requests[r].tenant == s.requests[r].tenant
    requires !ref.FrameRef? && t.store.Keys <= s.store.Keys + {ref} && s.puts.Keys <= t.puts.Keys <= s.puts.Keys + {ref}
    requires t.store.Keys <= s.store.Keys + t.puts.Keys
    ensures Rooted(t)
  {
    assert RequestRooted(s, r, s.requests[r]) && TxRooted(s, ref.tx);
    hide Rooted;
    DocumentServes(s, t, r, ref);
    assert RequestRooted(t, r, t.requests[r]) && TxRooted(t, ref.tx);
    hide Serves, FrameAlone, TxRooted, RequestRooted;
    ServedRooted(s, t, r, ref.tx);
  }

  lemma DocumentServes(s: State, t: State, r: RequestId, ref: Ref)
    requires r in s.requests && r in t.requests
    requires t == s.(requests := s.requests[r := t.requests[r]], store := t.store, puts := t.puts)
    requires !ref.FrameRef? && t.store.Keys <= s.store.Keys + {ref} && s.puts.Keys <= t.puts.Keys <= s.puts.Keys + {ref}
    requires t.store.Keys <= s.store.Keys + t.puts.Keys
    ensures Serves(s, t, r, ref.tx) && FrameAlone(s, t, r, ref.tx)
  {
  }

  lemma EnqueueDocumentRooted(s: State, r: RequestId)
    requires Rooted(s) && r in s.requests && s.requests[r].BothStored?
    ensures Rooted(DoEnqueueDocument(s, r))
  {
    var t, tx := DoEnqueueDocument(s, r), s.requests[r].tx;
    assert RequestRooted(s, r, s.requests[r]) && TxRooted(s, tx);
    assert JobRooted(s, Job(tx, FacePhase));
    ServedRooted(s, t, r, tx);
  }

  // ----- whole runs -----

  predicate FromStart(s0: State) {
    s0 == Initial(s0.now, s0.quota.plans, s0.requiredAge)
  }

  lemma StepKeepsRooted(cfg: Settings, s: State, e: Event)
    requires Rooted(s) && Enabled(cfg, s, e)
    ensures Rooted(Apply(cfg, s, e))
  {
    hide Rooted;
    match e
    case Http(r, h) => HttpKeepsRooted(cfg, s, r, h);
    case Work(a, w) => WorkKeepsRooted(cfg, s, a, w);
    case _ => QuietRooted(s, Apply(cfg, s, e));
  }

  lemma QuietRooted(s: State, t: State)
    requires Rooted(s)
    requires t == s.(now := t.now, quota := t.quota, requiredAge := t.requiredAge, sessions := t.sessions,
                     tokens := t.tokens, payments := t.payments, consents := t.consents)
    ensures Rooted(t)
  {
    forall tx: TxId ensures TxRooted(t, tx) { assert TxRooted(s, tx); }
  }

  /** In every legal run from empty tables, jobs, attempts, requests, document sessions and audit
      rows go back to a queued face job of the tenant of their transaction. */
  lemma {:induction false} RunRooted(cfg: Settings, s0: State, run: seq<Event>)
    requires FromStart(s0) && Legal(cfg, s0, run)
    ensures Rooted(Final(cfg, s0, run))
    decreases |run|
  {
    if run != [] {
      RunRooted(cfg, s0, Front(run));
      hide Rooted, Enabled, Apply;
      StepKeepsRooted(cfg, Final(cfg, s0, Front(run)), run[|run| - 1]);
    }
  }

  // ----- the frame of a face check is erased for good -----

  /** A frame is put once: once it is gone it stays gone. */
  lemma FrameStaysGone(cfg: Settings, s: State, e: Event, tx: TxId)
    requires Rooted(s) && Enabled(cfg, s, e) && FrameRef(tx) in s.puts && FrameRef(tx) !in s.store
    ensures var t := Apply(cfg, s, e); FrameRef(tx) in t.puts && FrameRef(tx) !in t.store
  {
    match e
    case Http(r, h) =>
      if h.PutFrame? { assert RequestRooted(s, r, s.requests[r]); }
      hide Rooted;
      FrameNotPut(cfg, s, r, h, tx);
    case Work(a, w) =>
      StepWorksOn(cfg, s, a, w);
      hide WorkApply, WorkEnabled, Rooted;
    case _ =>
  }

  lemma FrameNotPut(cfg: Settings, s: State, r: RequestId, h: HttpEvent, tx: TxId)
    requires HttpEnabled(cfg, s, r, h) && (h.PutFrame? ==> s.requests[r].tx != tx)
    requires FrameRef(tx) in s.puts && FrameRef(tx) !in s.store
    ensures var t := HttpApply(cfg, s, r, h); FrameRef(tx) in t.puts && FrameRef(tx) !in t.store
  {
  }

  lemma {:induction false} FrameGoneForGood(cfg: Settings, s0: State, run: seq<Event>, k: nat, tx: TxId)
    requires FromStart(s0) && Legal(cfg, s0, run) && k <= |run| && Legal(cfg, s0, run[..k])
    requires FrameRef(tx) in Final(cfg, s0, run[..k]).puts && FrameRef(tx) !in Final(cfg, s0, run[..k]).store
    ensures FrameRef(tx) in Final(cfg, s0, run).puts && FrameRef(tx) !in Final(cfg, s0, run).store
    decreases |run|
  {
    if k == |run| {
      assert run[..k] == run;
    } else {
      assert Front(run)[..k] == run[..k];
      FrameGoneForGood(cfg, s0, Front(run), k, tx);
      RunRooted(cfg, s0, Front(run));
      hide Rooted, Enabled, Apply;
      FrameStaysGone(cfg, Final(cfg, s0, Front(run)), run[|run| - 1], tx);
    }
  }

  /** However slow the run: once a face check has run its finally block to the end, or its discard
      row exists, the frame is absent at every later point. */
  lemma FrameErased(cfg: Settings, s0: State, run: seq<Event>, k: nat, tx: TxId)
    requires FromStart(s0) && Legal(cfg, s0, run) && k <= |run| && Legal(cfg, s0, run[..k])
    requires var s, job := Final(cfg, s0, run[..k]), Job(tx, FacePhase);
             job in s.discards || exists a :: a in s.attempts && s.attempts[a].job == job && s.attempts[a].pc.Done?
    ensures FrameRef(tx) !in Final(cfg, s0, run).store
  {
    RunRooted(cfg, s0, run[..k]);
    var s, job := Final(cfg, s0, run[..k]), Job(tx, FacePhase);
    assert TxRooted(s, tx);
    if job !in s.discards {
      var a :| a in s.attempts && s.attempts[a].job == job && s.attempts[a].pc.Done?;
      assert AttemptRooted(s, s.attempts[a]);
    }
    assert JobRooted(s, job);
    hide Rooted;
    FrameGoneForGood(cfg, s0, run, k, tx);
  }
}
