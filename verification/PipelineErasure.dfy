/** The two images of a document check, in runs of any speed. A frame is put once in every run; the
    images are put once per document token, so what matters is how many tokens were issued. */
module PipelineErasure {
  import opened Wrappers
  import opened Pipeline
  import opened PipelineTheorems
  import opened PipelineAnyRun

  predicate ImagesGone(s: State, tx: TxId) {
    DocumentRef(tx) !in s.store && SelfieRef(tx) !in s.store
  }

  predicate ImagesPut(s: State, tx: TxId) {
    DocumentRef(tx) in s.puts && SelfieRef(tx) in s.puts
  }

  /** No image of the transaction has ever been put. */
  predicate NoImages(s: State, tx: TxId) {
    ImagesGone(s, tx) && DocumentRef(tx) !in s.puts && SelfieRef(tx) !in s.puts
    && Job(tx, DocumentPhase) !in s.jobs && Job(tx, DocumentPhase) !in s.discards
  }

  /** A document request of the transaction that is still under way. */
  predicate Submits(q: Request, tx: TxId) {
    (q.TookDocumentSession? || q.DocumentAdmitted? || q.DocumentStored? || q.BothStored?) && q.tx == tx
  }

  /** The one request under way has put what its place says, and queued nothing. */
  predicate SubmitsAlone(s: State, tx: TxId, t: Trail, r: RequestId, q: Request) {
    && t.documentRequest == Some(r) && Job(tx, DocumentPhase) !in s.jobs && Job(tx, DocumentPhase) !in s.discards
    && (q.DocumentStored? ==> DocumentRef(tx) in s.puts) && (q.BothStored? ==> ImagesPut(s, tx))
  }

  /** How far the finally block of an attempt has come. */
  predicate ErasedUpTo(s: State, tx: TxId, pc: Pc) {
    && (pc.DeletingSelfie? || pc.Discarding? || pc.Done? ==> DocumentRef(tx) !in s.store)
    && (pc.Discarding? || pc.Done? ==> SelfieRef(tx) !in s.store)
  }

  predicate AttemptErases(s: State, tx: TxId, x: Attempt) {
    x.job == Job(tx, DocumentPhase) ==> ErasedUpTo(s, tx, x.pc)
  }

  ghost predicate OneSubmission(s: State, tx: TxId, t: Trail) {
    && (if t.documentRequest.None? then NoImages(s, tx) && forall r | r in s.requests :: !Submits(s.requests[r], tx)
        else t.issued != [] && forall k | k in s.documentSessions :: s.documentSessions[k].tx != tx)
    && (forall r | r in s.requests && Submits(s.requests[r], tx) :: SubmitsAlone(s, tx, t, r, s.requests[r]))
    && (Job(tx, DocumentPhase) in s.jobs ==> ImagesPut(s, tx))
    && (Job(tx, DocumentPhase) in s.discards ==> Job(tx, DocumentPhase) in s.jobs && ImagesGone(s, tx))
    && (forall a | a in s.attempts :: AttemptErases(s, tx, s.attempts[a]))
  }

  /** Kept by every step, timely or not. */
  ghost predicate Single(s: State, tx: TxId) {
    if tx in s.trails then |s.trails[tx].issued| <= 1 ==> OneSubmission(s, tx, s.trails[tx]) else NoImages(s, tx)
  }

  // ----- steps that do not concern the images of the transaction -----

  ghost predicate Elsewhere(s: State, t: State, tx: TxId) {
    && (tx in t.trails <==> tx in s.trails)
    && (tx in s.trails ==>
          && t.trails[tx].issued == s.trails[tx].issued
          && t.trails[tx].documentRequest == s.trails[tx].documentRequest)
    && (DocumentRef(tx) in t.puts <==> DocumentRef(tx) in s.puts)
    && (SelfieRef(tx) in t.puts <==> SelfieRef(tx) in s.puts)
    && (DocumentRef(tx) in t.store ==> DocumentRef(tx) in s.store)
    && (SelfieRef(tx) in t.store ==> SelfieRef(tx) in s.store)
    && (Job(tx, DocumentPhase) in t.jobs <==> Job(tx, DocumentPhase) in s.jobs)
    && t.attempts == s.attempts && t.discards == s.discards
    && (forall k | k in t.documentSessions :: k in s.documentSessions && t.documentSessions[k] == s.documentSessions[k])
    && (forall r | r in t.requests && Submits(t.requests[r], tx) :: r in s.requests && s.requests[r] == t.requests[r])
  }

  lemma ElsewhereKeeps(s: State, t: State, tx: TxId)
    requires Single(s, tx) && Elsewhere(s, t, tx)
    ensures Single(t, tx)
  {
    if tx in s.trails && |s.trails[tx].issued| <= 1 {
      forall a | a in t.attempts ensures AttemptErases(t, tx, t.attempts[a]) {
        assert AttemptErases(s, tx, s.attempts[a]);
      }
      forall r | r in t.requests && Submits(t.requests[r], tx)
        ensures SubmitsAlone(t, tx, t.trails[tx], r, t.requests[r])
      {
        assert SubmitsAlone(s, tx, s.trails[tx], r, s.requests[r]);
      }
    }
  }

  // ----- steps of a job processor -----

  /** What a step of attempt a does to the images, beyond what every step leaves alone. */
  ghost predicate Erases(s: State, t: State, a: AttemptId, tx: TxId) {
    && a in t.attempts
    && (AttemptErases(t, tx, t.attempts[a]) || (a in s.attempts && !AttemptErases(s, tx, s.attempts[a])))
    && (tx in s.trails && tx in t.trails ==> t.trails[tx].documentRequest == s.trails[tx].documentRequest)
    && (forall k | k in t.documentSessions && t.documentSessions[k].tx == tx ::
          || (k in s.documentSessions && t.documentSessions[k] == s.documentSessions[k])
          || (tx in s.trails && tx in t.trails && |t.trails[tx].issued| == |s.trails[tx].issued| + 1))
  }

  lemma WriteErases(cfg: Settings, s: State, a: AttemptId, w: WorkEvent, tx: TxId)
    requires WorkEnabled(cfg, s, a, w) && WritesTrail(w)
    ensures Erases(s, WorkApply(cfg, s, a, w), a, tx)
  {
    hide Storable, Erases;
    match w
    case IssueToken(token) => IssueErases(s, a, token, tx);
    case WriteAudit => AuditErases(s, a, tx);
    case WriteRecord => RecordErases(s, a, tx);
    case Send(ok) => SendErases(cfg, s, a, ok, tx);
    case _ =>
  }

  lemma IssueErases(s: State, a: AttemptId, token: Token, tx: TxId)
    requires At(s, a) && s.attempts[a].pc.Issuing?
    ensures Erases(s, DoIssue(s, a, token), a, tx)
  {
  }

  lemma AuditErases(s: State, a: AttemptId, tx: TxId)
    requires At(s, a) && s.attempts[a].pc.Auditing?
    ensures Erases(s, DoAudit(s, a), a, tx)
  {
  }

  lemma RecordErases(s: State, a: AttemptId, tx: TxId)
    requires At(s, a) && s.attempts[a].pc.Recording?
    ensures Erases(s, DoRecord(s, a), a, tx)
  {
  }

  lemma SendErases(cfg: Settings, s: State, a: AttemptId, ok: bool, tx: TxId)
    requires At(s, a) && s.attempts[a].pc.Dispatching?
    ensures Erases(s, DoSend(cfg, s, a, ok), a, tx)
  {
  }

  /** Steps that write no row. */
  lemma MoveErases(s: State, t: State, a: AttemptId, tx: TxId)
    requires a in t.attempts && t.trails == s.trails && t.documentSessions == s.documentSessions
    requires AttemptErases(t, tx, t.attempts[a]) || (a in s.attempts && !AttemptErases(s, tx, s.attempts[a]))
    ensures Erases(s, t, a, tx)
  {
  }

  /** Steps that stay short of the discard. */
  lemma BeforeErases(s: State, t: State, a: AttemptId, tx: TxId)
    requires a in t.attempts && t.trails == s.trails && t.documentSessions == s.documentSessions
    requires var pc := t.attempts[a].pc; !pc.DeletingSelfie? && !pc.Discarding? && !pc.Done?
    ensures Erases(s, t, a, tx)
  {
  }

  lemma QuietErases(cfg: Settings, s: State, a: AttemptId, w: WorkEvent, tx: TxId)
    requires WorkEnabled(cfg, s, a, w) && !WritesTrail(w)
    ensures Erases(s, WorkApply(cfg, s, a, w), a, tx)
  {
    hide Erases, AfterTenant;
    match w
    case Start(job) => BeforeErases(s, DoStart(s, a, job), a, tx);
    case Acquire => BeforeErases(s, DoAcquire(cfg, s, a), a, tx);
    case Throw => BeforeErases(s, Goto(s, a, Deleting), a, tx);
    case DeleteFails => BeforeErases(s, Goto(s, a, Failed), a, tx);
    case Crash => BeforeErases(s, Goto(s, a, Dead), a, tx);
    case _ =>
      if w.Delete? || w.DeleteSelfie? || w.Discard? {
        DeleteErases(cfg, s, a, w, tx);
      } else {
        ReadErases(cfg, s, a, w, tx);
      }
  }

  lemma DeleteErases(cfg: Settings, s: State, a: AttemptId, w: WorkEvent, tx: TxId)
    requires WorkEnabled(cfg, s, a, w) && (w.Delete? || w.DeleteSelfie? || w.Discard?)
    ensures Erases(s, WorkApply(cfg, s, a, w), a, tx)
  {
    hide Erases;
    match w
    case Delete => MoveErases(s, DoDelete(s, a), a, tx);
    case DeleteSelfie => MoveErases(s, DoDeleteSelfie(s, a), a, tx);
    case Discard(written) => MoveErases(s, DoDiscard(s, a, written), a, tx);
    case _ =>
  }

  lemma ReadErases(cfg: Settings, s: State, a: AttemptId, w: WorkEvent, tx: TxId)
    requires WorkEnabled(cfg, s, a, w)
    requires w.GetMedia? || w.GetSelfie? || w.ReadTenant? || w.Analyze? || w.VerifyDocument?
    ensures Erases(s, WorkApply(cfg, s, a, w), a, tx)
  {
    hide Erases, Found;
    match w
    case GetMedia => BeforeErases(s, DoGet(s, a), a, tx);
    case GetSelfie => BeforeErases(s, DoGetSelfie(s, a), a, tx);
    case ReadTenant => BeforeErases(s, DoReadTenant(cfg, s, a), a, tx);
    case Analyze(result) => BeforeErases(s, DoAnalyze(s, a, result), a, tx);
    case VerifyDocument(check) => BeforeErases(s, DoVerify(s, a, check), a, tx);
    case _ =>
  }

  lemma WorkSingle(s: State, t: State, a: AttemptId, tx: TxId)
    requires Rooted(s) && Single(s, tx) && WorksOn(s, t, a) && Erases(s, t, a, tx)
    ensures Single(t, tx)
  {
    if a in s.attempts { assert AttemptRooted(s, s.attempts[a]); }
    hide Rooted, AttemptRooted;
    if tx in s.trails {
      assert Longer(s.trails[tx], t.trails[tx]);
      if |t.trails[tx].issued| <= 1 {
        hide WorksOn, Erases;
        WorkedSubmission(s, t, a, tx);
      }
    }
  }

  lemma WorkedSubmission(s: State, t: State, a: AttemptId, tx: TxId)
    requires WorksOn(s, t, a) && Erases(s, t, a, tx) && (a in s.attempts ==> s.attempts[a].job in s.jobs)
    requires tx in s.trails && tx in t.trails && |s.trails[tx].issued| <= |t.trails[tx].issued| <= 1
    requires OneSubmission(s, tx, s.trails[tx])
    ensures OneSubmission(t, tx, t.trails[tx])
  {
    WorkedAttempts(s, t, a, tx);
    WorkedDiscards(s, t, a, tx);
    hide AttemptErases, Longer;
    forall r | r in t.requests && Submits(t.requests[r], tx)
      ensures SubmitsAlone(t, tx, t.trails[tx], r, t.requests[r])
    {
      assert SubmitsAlone(s, tx, s.trails[tx], r, s.requests[r]);
    }
  }

  lemma WorkedAttempts(s: State, t: State, a: AttemptId, tx: TxId)
    requires WorksOn(s, t, a) && Erases(s, t, a, tx)
    requires forall b | b in s.attempts :: AttemptErases(s, tx, s.attempts[b])
    ensures forall b | b in t.attempts :: AttemptErases(t, tx, t.attempts[b])
  {
    forall b | b in t.attempts ensures AttemptErases(t, tx, t.attempts[b]) {
      if b != a { assert AttemptErases(s, tx, s.attempts[b]); }
    }
  }

  /** A new discard row is that of an attempt that has deleted both images. */
  lemma WorkedDiscards(s: State, t: State, a: AttemptId, tx: TxId)
    requires WorksOn(s, t, a) && (a in s.attempts ==> s.attempts[a].job in s.jobs)
    requires forall b | b in s.attempts :: AttemptErases(s, tx, s.attempts[b])
    requires Job(tx, DocumentPhase) in s.discards ==> Job(tx, DocumentPhase) in s.jobs && ImagesGone(s, tx)
    ensures Job(tx, DocumentPhase) in t.discards ==> Job(tx, DocumentPhase) in t.jobs && ImagesGone(t, tx)
  {
    if Job(tx, DocumentPhase) in t.discards && Job(tx, DocumentPhase) !in s.discards {
      assert AttemptErases(s, tx, s.attempts[a]);
    }
  }

  // ----- steps of a request handler -----

  predicate Submitting(h: HttpEvent) {
    h.AdmitDocument? || h.PutDocument? || h.PutSelfie? || h.EnqueueDocument?
  }

  lemma HttpSingle(cfg: Settings, s: State, r: RequestId, h: HttpEvent, tx: TxId)
    requires Rooted(s) && Single(s, tx) && HttpEnabled(cfg, s, r, h)
    ensures Single(HttpApply(cfg, s, r, h), tx)
  {
    hide Rooted, Single, Elsewhere;
    if h.Admit? && h.tx == tx {
      AdmitSingle(s, r, tx);
    } else if h.TakeDocumentSession? && s.documentSessions[h.token].tx == tx {
      TakeSingle(s, r, h.token);
    } else if Submitting(h) && s.requests[r].tx == tx {
      SubmitSingle(cfg, s, r, h, tx);
    } else {
      HttpElsewhere(cfg, s, r, h, tx);
      hide HttpApply, HttpEnabled;
      ElsewhereKeeps(s, HttpApply(cfg, s, r, h), tx);
    }
  }

  lemma HttpElsewhere(cfg: Settings, s: State, r: RequestId, h: HttpEvent, tx: TxId)
    requires HttpEnabled(cfg, s, r, h) && (h.Admit? ==> h.tx != tx)
    requires h.TakeDocumentSession? ==> s.documentSessions[h.token].tx != tx
    requires Submitting(h) ==> s.requests[r].tx != tx
    ensures Elsewhere(s, HttpApply(cfg, s, r, h), tx)
  {
    hide Elsewhere;
    match h
    case TakeSession(token) => RequestElsewhere(s, DoTakeSession(s, r, token), r, tx);
    case TakeDocumentSession(token) => TakeElsewhere(s, r, token, tx);
    case Reject => RequestElsewhere(s, SetRequest(s, r, Closed), r, tx);
    case _ => if Submitting(h) { SubmitElsewhere(cfg, s, r, h, tx); } else { FrameElsewhere(cfg, s, r, h, tx); }
  }

  lemma FrameElsewhere(cfg: Settings, s: State, r: RequestId, h: HttpEvent, tx: TxId)
    requires HttpEnabled(cfg, s, r, h) && (h.Admit? || h.PutFrame? || h.EnqueueFace?) && (h.Admit? ==> h.tx != tx)
    ensures Elsewhere(s, HttpApply(cfg, s, r, h), tx)
  {
    hide Elsewhere;
    match h
    case Admit(x) => AdmitElsewhere(s, r, x, tx);
    case PutFrame(m) => PutElsewhere(s, DoPutFrame(cfg, s, r, m), r, FrameRef(s.requests[r].tx), tx);
    case EnqueueFace => EnqueueElsewhere(s, DoEnqueueFace(s, r), r, Job(s.requests[r].tx, FacePhase), tx);
    case _ =>
  }

  lemma SubmitElsewhere(cfg: Settings, s: State, r: RequestId, h: HttpEvent, tx: TxId)
    requires HttpEnabled(cfg, s, r, h) && Submitting(h) && s.requests[r].tx != tx
    ensures Elsewhere(s, HttpApply(cfg, s, r, h), tx)
  {
    SubmitMoves(cfg, s, r, h);
    assert SubmitsOnly(s, HttpApply(cfg, s, r, h), r, s.requests[r].tx);
    hide HttpApply, HttpEnabled, Elsewhere, SubmitsOnly, SubmitsOn;
    SubmitsOnlyElsewhere(s, HttpApply(cfg, s, r, h), r, s.requests[r].tx, tx);
  }

  /** The step rewrites request r and may put images of that transaction or queue its document job. */
  ghost predicate SubmitsOnly(s: State, t: State, r: RequestId, x: TxId) {
    && r in t.requests && (t.requests[r].Closed? || Submits(t.requests[r], x))
    && t == s.(requests := s.requests[r := t.requests[r]], store := t.store, puts := t.puts, jobs := t.jobs)
    && s.puts.Keys <= t.puts.Keys <= s.puts.Keys + {DocumentRef(x), SelfieRef(x)}
    && t.store.Keys <= s.store.Keys + {DocumentRef(x), SelfieRef(x)}
    && s.jobs.Keys <= t.jobs.Keys <= s.jobs.Keys + {Job(x, DocumentPhase)}
  }

  lemma SubmitsOnlyElsewhere(s: State, t: State, r: RequestId, x: TxId, tx: TxId)
    requires SubmitsOnly(s, t, r, x) && x != tx
    ensures Elsewhere(s, t, tx)
  {
    assert forall q | q in t.requests && Submits(t.requests[q], tx) :: q != r;
    assert t.attempts == s.attempts && t.trails == s.trails && t.documentSessions == s.documentSessions
        && t.discards == s.discards;
  }

  lemma RequestElsewhere(s: State, t: State, r: RequestId, tx: TxId)
    requires r in t.requests && !Submits(t.requests[r], tx)
    requires t == s.(requests := s.requests[r := t.requests[r]], sessions := t.sessions, consumed := t.consumed)
    ensures Elsewhere(s, t, tx)
  {
  }

  lemma PutElsewhere(s: State, t: State, r: RequestId, ref: Ref, tx: TxId)
    requires r in t.requests && !Submits(t.requests[r], tx) && (ref.FrameRef? || ref.tx != tx)
    requires t == s.(requests := s.requests[r := t.requests[r]], store := t.store, puts := t.puts)
    requires t.puts.Keys == s.puts.Keys + {ref} && t.store.Keys <= s.store.Keys + {ref}
    ensures Elsewhere(s, t, tx)
  {
  }

  lemma EnqueueElsewhere(s: State, t: State, r: RequestId, job: Job, tx: TxId)
    requires r in t.requests && !Submits(t.requests[r], tx) && job != Job(tx, DocumentPhase)
    requires t == s.(requests := s.requests[r := t.requests[r]], jobs := t.jobs) && t.jobs.Keys == s.jobs.Keys + {job}
    ensures Elsewhere(s, t, tx)
  {
  }

  lemma AdmitElsewhere(s: State, r: RequestId, x: TxId, tx: TxId)
    requires r in s.requests && s.requests[r].TookSession? && x != tx
    ensures Elsewhere(s, DoAdmit(s, r, x), tx)
  {
  }

  lemma TakeElsewhere(s: State, r: RequestId, token: Token, tx: TxId)
    requires token in s.documentSessions && s.documentSessions[token].tx in s.trails
    requires s.documentSessions[token].tx != tx
    ensures Elsewhere(s, DoTakeDocumentSession(s, r, token), tx)
  {
  }

  /** Nobody speaks of a transaction before it is admitted. */
  lemma AdmitSingle(s: State, r: RequestId, tx: TxId)
    requires Rooted(s) && Single(s, tx) && r in s.requests && s.requests[r].TookSession? && tx !in s.trails
    ensures Single(DoAdmit(s, r, tx), tx)
  {
    var t := DoAdmit(s, r, tx);
    forall q | q in t.requests ensures !Submits(t.requests[q], tx) {
      if q != r { assert RequestRooted(s, q, s.requests[q]); }
    }
    forall a | a in t.attempts ensures AttemptErases(t, tx, t.attempts[a]) {
      assert AttemptRooted(s, s.attempts[a]);
    }
  }

  /** The only token of the transaction is used up by this request. */
  lemma TakeSingle(s: State, r: RequestId, token: Token)
    requires Rooted(s) && r !in s.requests && token in s.documentSessions && s.documentSessions[token].tx in s.trails
    requires Single(s, s.documentSessions[token].tx)
    ensures Single(DoTakeDocumentSession(s, r, token), s.documentSessions[token].tx)
  {
    var t, tx := DoTakeDocumentSession(s, r, token), s.documentSessions[token].tx;
    if |s.trails[tx].issued| <= 1 {
      assert SessionRooted(s, token, s.documentSessions[token]);
      forall k | k in t.documentSessions ensures t.documentSessions[k].tx != tx {
        assert SessionRooted(s, k, s.documentSessions[k]);
      }
      forall a | a in t.attempts ensures AttemptErases(t, tx, t.attempts[a]) {
        assert AttemptErases(s, tx, s.attempts[a]);
      }
    }
  }

  /** One document request at a time puts what its next place says, and queues the job last. */
  ghost predicate SubmitsOn(s: State, t: State, r: RequestId, x: TxId) {
    && SubmitsOnly(s, t, r, x) && r in s.requests && Submits(s.requests[r], x)
    && (!t.requests[r].Closed? ==> t.jobs == s.jobs)
    && match t.requests[r]
       case DocumentStored(_, _) => DocumentRef(x) in t.puts
       case BothStored(_, _) => s.requests[r].DocumentStored? && SelfieRef(x) in t.puts
       case Closed => s.requests[r].BothStored?
       case _ => true
  }

  lemma SubmitMoves(cfg: Settings, s: State, r: RequestId, h: HttpEvent)
    requires HttpEnabled(cfg, s, r, h) && Submitting(h)
    ensures SubmitsOn(s, HttpApply(cfg, s, r, h), r, s.requests[r].tx)
  {
  }

  /** The request under way goes on: no job exists yet, so nobody has erased anything. */
  lemma SubmitSingle(cfg: Settings, s: State, r: RequestId, h: HttpEvent, tx: TxId)
    requires Rooted(s) && Single(s, tx) && HttpEnabled(cfg, s, r, h) && Submitting(h) && s.requests[r].tx == tx
    ensures Single(HttpApply(cfg, s, r, h), tx)
  {
    SubmitMoves(cfg, s, r, h);
    hide HttpApply, HttpEnabled;
    SubmitsOnSingle(s, HttpApply(cfg, s, r, h), r, tx);
  }

  lemma SubmitsOnSingle(s: State, t: State, r: RequestId, tx: TxId)
    requires Rooted(s) && Single(s, tx) && SubmitsOn(s, t, r, tx)
    ensures Single(t, tx)
  {
    assert RequestRooted(s, r, s.requests[r]);
    if |s.trails[tx].issued| <= 1 {
      assert SubmitsAlone(s, tx, s.trails[tx], r, s.requests[r]);
      forall a | a in t.attempts ensures AttemptErases(t, tx, t.attempts[a]) {
        assert AttemptRooted(s, s.attempts[a]);
      }
      hide Rooted, AttemptErases;
      forall q | q in t.requests && Submits(t.requests[q], tx)
        ensures SubmitsAlone(t, tx, t.trails[tx], q, t.requests[q])
      {
        assert q in s.requests && Submits(s.requests[q], tx) && SubmitsAlone(s, tx, s.trails[tx], q, s.requests[q]);
      }
    }
  }

  // ----- whole runs -----

  lemma QuietSingle(s: State, t: State, tx: TxId)
    requires Single(s, tx)
    requires t == s.(now := t.now, quota := t.quota, requiredAge := t.requiredAge, sessions := t.sessions,
                     tokens := t.tokens, payments := t.payments, consents := t.consents)
    ensures Single(t, tx)
  {
    ElsewhereKeeps(s, t, tx);
  }

  lemma StepSingle(cfg: Settings, s: State, e: Event, tx: TxId)
    requires Rooted(s) && Single(s, tx) && Enabled(cfg, s, e)
    ensures Single(Apply(cfg, s, e), tx)
  {
    hide Rooted, Single, WorkApply, WorkEnabled, HttpApply, HttpEnabled, WorksOn, Erases;
    match e
    case Http(r, h) => HttpSingle(cfg, s, r, h, tx);
    case Work(a, w) =>
      StepWorksOn(cfg, s, a, w);
      StepErases(cfg, s, a, w, tx);
      WorkSingle(s, WorkApply(cfg, s, a, w), a, tx);
    case _ => QuietSingle(s, Apply(cfg, s, e), tx);
  }

  lemma StepErases(cfg: Settings, s: State, a: AttemptId, w: WorkEvent, tx: TxId)
    requires WorkEnabled(cfg, s, a, w)
    ensures Erases(s, WorkApply(cfg, s, a, w), a, tx)
  {
    hide Erases, WorkApply, WorkEnabled;
    if WritesTrail(w) { WriteErases(cfg, s, a, w, tx); } else { QuietErases(cfg, s, a, w, tx); }
  }

  lemma {:induction false} RunSingle(cfg: Settings, s0: State, run: seq<Event>, tx: TxId)
    requires FromStart(s0) && Legal(cfg, s0, run)
    ensures Single(Final(cfg, s0, run), tx)
    decreases |run|
  {
    if run != [] {
      RunSingle(cfg, s0, Front(run), tx);
      RunRooted(cfg, s0, Front(run));
      hide Rooted, Single, Enabled, Apply;
      StepSingle(cfg, Final(cfg, s0, Front(run)), run[|run| - 1], tx);
    }
  }

  /** A document check that has come to its end: its discard row is there, or its finally block has
      run to the end. */
  predicate Finished(s: State, job: Job) {
    job in s.discards || exists a :: a in s.attempts && s.attempts[a].job == job && s.attempts[a].pc.Done?
  }

  predicate GoneForGood(s: State, tx: TxId) {
    Job(tx, DocumentPhase) in s.jobs && ImagesGone(s, tx)
  }

  lemma FinishedIsGone(s: State, tx: TxId)
    requires Rooted(s) && Single(s, tx) && Finished(s, Job(tx, DocumentPhase))
    requires tx in s.trails ==> |s.trails[tx].issued| <= 1
    ensures GoneForGood(s, tx)
  {
    if Job(tx, DocumentPhase) !in s.discards {
      var a :| a in s.attempts && s.attempts[a].job == Job(tx, DocumentPhase) && s.attempts[a].pc.Done?;
      assert AttemptRooted(s, s.attempts[a]) && JobRooted(s, s.attempts[a].job);
      assert AttemptErases(s, tx, s.attempts[a]);
    }
  }

  /** With one token, there is no request left that could put the images again. */
  lemma StepLeavesGone(cfg: Settings, s: State, e: Event, tx: TxId)
    requires Rooted(s) && Single(s, tx) && Enabled(cfg, s, e) && GoneForGood(s, tx)
    requires tx in s.trails && |s.trails[tx].issued| <= 1
    ensures GoneForGood(Apply(cfg, s, e), tx)
  {
    match e
    case Http(r, h) =>
      NobodySubmits(s, tx);
      assert h.PutDocument? || h.PutSelfie? ==> Submits(s.requests[r], s.requests[r].tx);
      hide Rooted, Single;
      HttpLeavesGone(cfg, s, r, h, tx);
    case Work(a, w) =>
      StepWorksOn(cfg, s, a, w);
      hide WorkApply, WorkEnabled, Rooted, Single;
    case _ =>
  }

  lemma NobodySubmits(s: State, tx: TxId)
    requires Single(s, tx) && Job(tx, DocumentPhase) in s.jobs && tx in s.trails && |s.trails[tx].issued| <= 1
    ensures forall r | r in s.requests :: !Submits(s.requests[r], tx)
  {
    assert forall r | r in s.requests && Submits(s.requests[r], tx) ::
        SubmitsAlone(s, tx, s.trails[tx], r, s.requests[r]);
  }

  lemma HttpLeavesGone(cfg: Settings, s: State, r: RequestId, h: HttpEvent, tx: TxId)
    requires HttpEnabled(cfg, s, r, h) && GoneForGood(s, tx)
    requires h.PutDocument? || h.PutSelfie? ==> s.requests[r].tx != tx
    ensures GoneForGood(HttpApply(cfg, s, r, h), tx)
  {
  }

  /** Tokens are not taken back. */
  lemma IssuedBefore(cfg: Settings, s0: State, run: seq<Event>, k: nat, tx: TxId)
    requires Legal(cfg, s0, run) && k <= |run| && Legal(cfg, s0, run[..k])
    requires tx in Final(cfg, s0, run).trails && |Final(cfg, s0, run).trails[tx].issued| <= 1
    ensures tx in Final(cfg, s0, run[..k]).trails ==> |Final(cfg, s0, run[..k]).trails[tx].issued| <= 1
  {
    RunProgress(cfg, s0, run, k);
  }

  lemma {:induction false} StaysGone(cfg: Settings, s0: State, run: seq<Event>, k: nat, tx: TxId)
    requires FromStart(s0) && Legal(cfg, s0, run) && k <= |run| && Legal(cfg, s0, run[..k])
    requires GoneForGood(Final(cfg, s0, run[..k]), tx)
    requires tx in Final(cfg, s0, run).trails && |Final(cfg, s0, run).trails[tx].issued| <= 1
    ensures GoneForGood(Final(cfg, s0, run), tx)
    decreases |run|
  {
    if k == |run| {
      assert run[..k] == run;
    } else {
      assert Front(run)[..k] == run[..k];
      IssuedBefore(cfg, s0, run, |run| - 1, tx);
      hide Enabled, Apply, FromStart, GoneForGood;
      JobHasTrail(cfg, s0, run, k, tx);
      StaysGone(cfg, s0, Front(run), k, tx);
      OneStepOn(cfg, s0, run, tx);
    }
  }

  lemma OneStepOn(cfg: Settings, s0: State, run: seq<Event>, tx: TxId)
    requires FromStart(s0) && run != [] && Legal(cfg, s0, run) && GoneForGood(Final(cfg, s0, Front(run)), tx)
    requires var s := Final(cfg, s0, Front(run)); tx in s.trails && |s.trails[tx].issued| <= 1
    ensures GoneForGood(Final(cfg, s0, run), tx)
  {
    BothHold(cfg, s0, Front(run), tx);
    hide Rooted, Single, Enabled, Apply, FromStart, GoneForGood;
    StepLeavesGone(cfg, Final(cfg, s0, Front(run)), run[|run| - 1], tx);
  }

  lemma BothHold(cfg: Settings, s0: State, run: seq<Event>, tx: TxId)
    requires FromStart(s0) && Legal(cfg, s0, run)
    ensures Rooted(Final(cfg, s0, run)) && Single(Final(cfg, s0, run), tx)
  {
    RunRooted(cfg, s0, run);
    RunSingle(cfg, s0, run, tx);
  }

  /** The transaction of a job that was queued at that point still exists one step before the end. */
  lemma JobHasTrail(cfg: Settings, s0: State, run: seq<Event>, k: nat, tx: TxId)
    requires FromStart(s0) && Legal(cfg, s0, run) && k < |run| && Legal(cfg, s0, run[..k])
    requires GoneForGood(Final(cfg, s0, run[..k]), tx)
    ensures tx in Final(cfg, s0, Front(run)).trails
  {
    RunRooted(cfg, s0, run[..k]);
    assert JobRooted(Final(cfg, s0, run[..k]), Job(tx, DocumentPhase));
    hide Rooted;
    assert Front(run)[..k] == run[..k];
    RunProgress(cfg, s0, Front(run), k);
  }

  /** In every legal run in which at most one document token was issued for the transaction, as in
      every timely one: once a document check has come to its end, both images are absent at every
      later point. */
  lemma ImagesErased(cfg: Settings, s0: State, run: seq<Event>, k: nat, tx: TxId)
    requires FromStart(s0) && Legal(cfg, s0, run) && k <= |run| && Legal(cfg, s0, run[..k])
    requires Finished(Final(cfg, s0, run[..k]), Job(tx, DocumentPhase))
    requires tx in Final(cfg, s0, run).trails && |Final(cfg, s0, run).trails[tx].issued| <= 1
    ensures ImagesGone(Final(cfg, s0, run), tx)
  {
    IssuedBefore(cfg, s0, run, k, tx);
    RunRooted(cfg, s0, run[..k]);
    RunSingle(cfg, s0, run[..k], tx);
    FinishedIsGone(Final(cfg, s0, run[..k]), tx);
    hide Rooted, Single, Finished;
    StaysGone(cfg, s0, run, k, tx);
  }
}
