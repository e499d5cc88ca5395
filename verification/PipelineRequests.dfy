/** Every step of a request handler keeps the invariant. */
module PipelineRequests {
  import opened Pipeline
  import opened PipelineInvariant

  /** A request step on a transaction: it rewrites that request, and possibly the trail's
      document request, the refs and the jobs of the transaction. */
  ghost predicate Handles(s: State, t: State, r: RequestId, tx: TxId) {
    && r in t.requests
    && t == s.(requests := s.requests[r := t.requests[r]], trails := t.trails, store := t.store, puts := t.puts,
               jobs := t.jobs, documentSessions := t.documentSessions)
    && (t.requests[r].Closed? || RequestAbout(t.requests[r], tx))
    && (forall ref: Ref | ref.tx != tx :: SameRef(s, t, ref))
    && (forall job: Job | job.tx != tx :: (job in t.jobs <==> job in s.jobs)
          && (job in s.jobs ==> t.jobs[job] == s.jobs[job]))
    && (forall x | x != tx :: (x in t.trails <==> x in s.trails) && (x in s.trails ==> t.trails[x] == s.trails[x]))
    && (forall k | k in t.documentSessions :: k in s.documentSessions && t.documentSessions[k] == s.documentSessions[k])
  }

  lemma HandlesTouches(s: State, t: State, r: RequestId, tx: TxId)
    requires Handles(s, t, r, tx)
    ensures Touches(s, t, tx)
  {
  }

  lemma KeepHandled(cfg: Settings, s: State, t: State, r: RequestId, tx: TxId)
    requires Inv(cfg, s) && Handles(s, t, r, tx) && TxOk(cfg, t, tx)
    requires forall q | q in t.requests && RequestAbout(t.requests[q], tx) :: RequestOk(t, q, t.requests[q])
    requires forall b | b in t.attempts && t.attempts[b].job.tx == tx :: AttemptOk(cfg, t, b, t.attempts[b])
    requires forall k | k in t.documentSessions
               && t.documentSessions[k].tx == tx :: DocumentSessionOk(t, k, t.documentSessions[k])
    ensures Inv(cfg, t)
  {
    HandlesTouches(s, t, r, tx);
    hide AttemptOk, TxOk, RequestOk, DocumentSessionOk, Touches;
    Localize(cfg, s, t, tx);
  }

  lemma AdmitHandles(s: State, r: RequestId, tx: TxId)
    requires r in s.requests && s.requests[r].TookSession? && tx !in s.trails
    ensures Handles(s, DoAdmit(s, r, tx), r, tx)
  {
  }

  lemma AdmitTxOk(cfg: Settings, s: State, r: RequestId, tx: TxId)
    requires r in s.requests && s.requests[r].TookSession? && tx !in s.trails && TxOk(cfg, s, tx)
    ensures TxOk(cfg, DoAdmit(s, r, tx), tx)
  {
  }

  /** Nothing can speak about a transaction that does not exist yet. */
  lemma NobodyYet(cfg: Settings, s: State, tx: TxId)
    requires Inv(cfg, s) && tx !in s.trails
    ensures forall q | q in s.requests :: !RequestAbout(s.requests[q], tx)
    ensures forall b | b in s.attempts :: s.attempts[b].job.tx != tx
    ensures forall k | k in s.documentSessions :: s.documentSessions[k].tx != tx
    ensures FrameRef(tx) !in s.puts && Job(tx, FacePhase) !in s.jobs
  {
    hide TrailOk;
    assert TxOk(cfg, s, tx);
    forall q | q in s.requests ensures !RequestAbout(s.requests[q], tx) { assert RequestOk(s, q, s.requests[q]); }
    forall b | b in s.attempts ensures s.attempts[b].job.tx != tx { assert AttemptOk(cfg, s, b, s.attempts[b]); }
  }

  lemma KeepAdmit(cfg: Settings, s: State, r: RequestId, tx: TxId)
    requires Inv(cfg, s) && r in s.requests && s.requests[r].TookSession? && tx !in s.trails
    ensures Inv(cfg, DoAdmit(s, r, tx))
  {
    hide AttemptOk, TxOk, DocumentSessionOk, Handles;
    AdmitHandles(s, r, tx);
    AdmitTxOk(cfg, s, r, tx);
    NobodyYet(cfg, s, tx);
    KeepHandled(cfg, s, DoAdmit(s, r, tx), r, tx);
  }

  lemma PutFrameHandles(cfg: Settings, s: State, r: RequestId, m: Media)
    requires r in s.requests && s.requests[r].Admitted?
    ensures Handles(s, DoPutFrame(cfg, s, r, m), r, s.requests[r].tx)
  {
  }

  lemma PutFrameTxOk(cfg: Settings, s: State, r: RequestId, m: Media)
    requires r in s.requests && s.requests[r].Admitted?
    requires TxOk(cfg, s, s.requests[r].tx) && RequestOk(s, r, s.requests[r])
    ensures TxOk(cfg, DoPutFrame(cfg, s, r, m), s.requests[r].tx)
  {
  }

  lemma PutFrameRequestOk(cfg: Settings, s: State, r: RequestId, m: Media, q: RequestId)
    requires r in s.requests && s.requests[r].Admitted? && q in s.requests
    requires RequestOk(s, r, s.requests[r]) && RequestOk(s, q, s.requests[q])
    ensures RequestOk(DoPutFrame(cfg, s, r, m), q, DoPutFrame(cfg, s, r, m).requests[q])
  {
  }

  lemma PutFrameAttemptOk(cfg: Settings, s: State, r: RequestId, m: Media, b: AttemptId)
    requires r in s.requests && s.requests[r].Admitted? && b in s.attempts
    requires RequestOk(s, r, s.requests[r]) && AttemptOk(cfg, s, b, s.attempts[b])
    ensures AttemptOk(cfg, DoPutFrame(cfg, s, r, m), b, s.attempts[b])
  {
  }

  lemma KeepPutFrame(cfg: Settings, s: State, r: RequestId, m: Media)
    requires Inv(cfg, s) && r in s.requests && s.requests[r].Admitted?
    ensures Inv(cfg, DoPutFrame(cfg, s, r, m))
  {
    hide AttemptOk, TxOk, RequestOk, Handles;
    var t := DoPutFrame(cfg, s, r, m);
    PutFrameHandles(cfg, s, r, m);
    PutFrameTxOk(cfg, s, r, m);
    forall q | q in t.requests ensures RequestOk(t, q, t.requests[q]) { PutFrameRequestOk(cfg, s, r, m, q); }
    forall b | b in t.attempts ensures AttemptOk(cfg, t, b, t.attempts[b]) { PutFrameAttemptOk(cfg, s, r, m, b); }
    KeepHandled(cfg, s, t, r, s.requests[r].tx);
  }

  lemma EnqueueFaceHandles(cfg: Settings, s: State, r: RequestId)
    requires r in s.requests && s.requests[r].Stored?
    ensures Handles(s, DoEnqueueFace(s, r), r, s.requests[r].tx)
  {
  }

  lemma EnqueueFaceTxOk(cfg: Settings, s: State, r: RequestId)
    requires r in s.requests && s.requests[r].Stored?
    requires TxOk(cfg, s, s.requests[r].tx) && RequestOk(s, r, s.requests[r])
    ensures TxOk(cfg, DoEnqueueFace(s, r), s.requests[r].tx)
  {
  }

  lemma EnqueueFaceRequestOk(cfg: Settings, s: State, r: RequestId, q: RequestId)
    requires r in s.requests && s.requests[r].Stored? && q in s.requests
    requires RequestOk(s, r, s.requests[r]) && RequestOk(s, q, s.requests[q])
    ensures RequestOk(DoEnqueueFace(s, r), q, DoEnqueueFace(s, r).requests[q])
  {
  }

  lemma EnqueueFaceAttemptOk(cfg: Settings, s: State, r: RequestId, b: AttemptId)
    requires r in s.requests && s.requests[r].Stored? && b in s.attempts
    requires RequestOk(s, r, s.requests[r]) && AttemptOk(cfg, s, b, s.attempts[b])
    ensures AttemptOk(cfg, DoEnqueueFace(s, r), b, s.attempts[b])
  {
  }

  lemma KeepEnqueueFace(cfg: Settings, s: State, r: RequestId)
    requires Inv(cfg, s) && r in s.requests && s.requests[r].Stored?
    ensures Inv(cfg, DoEnqueueFace(s, r))
  {
    hide AttemptOk, TxOk, RequestOk, Handles;
    var t := DoEnqueueFace(s, r);
    EnqueueFaceHandles(cfg, s, r);
    EnqueueFaceTxOk(cfg, s, r);
    forall q | q in t.requests ensures RequestOk(t, q, t.requests[q]) { EnqueueFaceRequestOk(cfg, s, r, q); }
    forall b | b in t.attempts ensures AttemptOk(cfg, t, b, t.attempts[b]) { EnqueueFaceAttemptOk(cfg, s, r, b); }
    KeepHandled(cfg, s, t, r, s.requests[r].tx);
  }

  lemma PutDocumentHandles(cfg: Settings, s: State, r: RequestId, m: Media)
    requires r in s.requests && s.requests[r].DocumentAdmitted?
    ensures Handles(s, DoPutDocument(cfg, s, r, m), r, s.requests[r].tx)
  {
  }

  lemma PutDocumentTxOk(cfg: Settings, s: State, r: RequestId, m: Media)
    requires r in s.requests && s.requests[r].DocumentAdmitted?
    requires TxOk(cfg, s, s.requests[r].tx) && RequestOk(s, r, s.requests[r])
    ensures TxOk(cfg, DoPutDocument(cfg, s, r, m), s.requests[r].tx)
  {
  }

  lemma PutDocumentRequestOk(cfg: Settings, s: State, r: RequestId, m: Media, q: RequestId)
    requires r in s.requests && s.requests[r].DocumentAdmitted? && q in s.requests
    requires RequestOk(s, r, s.requests[r]) && RequestOk(s, q, s.requests[q])
    ensures RequestOk(DoPutDocument(cfg, s, r, m), q, DoPutDocument(cfg, s, r, m).requests[q])
  {
  }

  lemma PutDocumentAttemptOk(cfg: Settings, s: State, r: RequestId, m: Media, b: AttemptId)
    requires r in s.requests && s.requests[r].DocumentAdmitted? && b in s.attempts
    requires RequestOk(s, r, s.requests[r]) && AttemptOk(cfg, s, b, s.attempts[b])
    ensures AttemptOk(cfg, DoPutDocument(cfg, s, r, m), b, s.attempts[b])
  {
  }

  lemma KeepPutDocument(cfg: Settings, s: State, r: RequestId, m: Media)
    requires Inv(cfg, s) && r in s.requests && s.requests[r].DocumentAdmitted?
    ensures Inv(cfg, DoPutDocument(cfg, s, r, m))
  {
    hide AttemptOk, TxOk, RequestOk, Handles;
    var t := DoPutDocument(cfg, s, r, m);
    PutDocumentHandles(cfg, s, r, m);
    PutDocumentTxOk(cfg, s, r, m);
    forall q | q in t.requests ensures RequestOk(t, q, t.requests[q]) { PutDocumentRequestOk(cfg, s, r, m, q); }
    forall b | b in t.attempts ensures AttemptOk(cfg, t, b, t.attempts[b]) { PutDocumentAttemptOk(cfg, s, r, m, b); }
    KeepHandled(cfg, s, t, r, s.requests[r].tx);
  }

  lemma PutSelfieHandles(cfg: Settings, s: State, r: RequestId, m: Media)
    requires r in s.requests && s.requests[r].DocumentStored?
    ensures Handles(s, DoPutSelfie(cfg, s, r, m), r, s.requests[r].tx)
  {
  }

  lemma PutSelfieTxOk(cfg: Settings, s: State, r: RequestId, m: Media)
    requires r in s.requests && s.requests[r].DocumentStored?
    requires TxOk(cfg, s, s.requests[r].tx) && RequestOk(s, r, s.requests[r])
    ensures TxOk(cfg, DoPutSelfie(cfg, s, r, m), s.requests[r].tx)
  {
  }

  lemma PutSelfieRequestOk(cfg: Settings, s: State, r: RequestId, m: Media, q: RequestId)
    requires r in s.requests && s.requests[r].DocumentStored? && q in s.requests
    requires RequestOk(s, r, s.requests[r]) && RequestOk(s, q, s.requests[q])
    ensures RequestOk(DoPutSelfie(cfg, s, r, m), q, DoPutSelfie(cfg, s, r, m).requests[q])
  {
  }

  lemma PutSelfieAttemptOk(cfg: Settings, s: State, r: RequestId, m: Media, b: AttemptId)
    requires r in s.requests && s.requests[r].DocumentStored? && b in s.attempts
    requires RequestOk(s, r, s.requests[r]) && AttemptOk(cfg, s, b, s.attempts[b])
    ensures AttemptOk(cfg, DoPutSelfie(cfg, s, r, m), b, s.attempts[b])
  {
  }

  lemma KeepPutSelfie(cfg: Settings, s: State, r: RequestId, m: Media)
    requires Inv(cfg, s) && r in s.requests && s.requests[r].DocumentStored?
    ensures Inv(cfg, DoPutSelfie(cfg, s, r, m))
  {
    hide AttemptOk, TxOk, RequestOk, Handles;
    var t := DoPutSelfie(cfg, s, r, m);
    PutSelfieHandles(cfg, s, r, m);
    PutSelfieTxOk(cfg, s, r, m);
    forall q | q in t.requests ensures RequestOk(t, q, t.requests[q]) { PutSelfieRequestOk(cfg, s, r, m, q); }
    forall b | b in t.attempts ensures AttemptOk(cfg, t, b, t.attempts[b]) { PutSelfieAttemptOk(cfg, s, r, m, b); }
    KeepHandled(cfg, s, t, r, s.requests[r].tx);
  }

  lemma EnqueueDocumentHandles(cfg: Settings, s: State, r: RequestId)
    requires r in s.requests && s.requests[r].BothStored?
    ensures Handles(s, DoEnqueueDocument(s, r), r, s.requests[r].tx)
  {
  }

  lemma EnqueueDocumentTxOk(cfg: Settings, s: State, r: RequestId)
    requires r in s.requests && s.requests[r].BothStored?
    requires TxOk(cfg, s, s.requests[r].tx) && RequestOk(s, r, s.requests[r])
    ensures TxOk(cfg, DoEnqueueDocument(s, r), s.requests[r].tx)
  {
  }

  lemma EnqueueDocumentRequestOk(cfg: Settings, s: State, r: RequestId, q: RequestId)
    requires r in s.requests && s.requests[r].BothStored? && q in s.requests
    requires RequestOk(s, r, s.requests[r]) && RequestOk(s, q, s.requests[q])
    ensures RequestOk(DoEnqueueDocument(s, r), q, DoEnqueueDocument(s, r).requests[q])
  {
  }

  lemma EnqueueDocumentAttemptOk(cfg: Settings, s: State, r: RequestId, b: AttemptId)
    requires r in s.requests && s.requests[r].BothStored? && b in s.attempts
    requires RequestOk(s, r, s.requests[r]) && AttemptOk(cfg, s, b, s.attempts[b])
    ensures AttemptOk(cfg, DoEnqueueDocument(s, r), b, s.attempts[b])
  {
  }

  lemma KeepEnqueueDocument(cfg: Settings, s: State, r: RequestId)
    requires Inv(cfg, s) && r in s.requests && s.requests[r].BothStored?
    ensures Inv(cfg, DoEnqueueDocument(s, r))
  {
    hide AttemptOk, TxOk, RequestOk, Handles;
    var t := DoEnqueueDocument(s, r);
    EnqueueDocumentHandles(cfg, s, r);
    EnqueueDocumentTxOk(cfg, s, r);
    forall q | q in t.requests ensures RequestOk(t, q, t.requests[q]) { EnqueueDocumentRequestOk(cfg, s, r, q); }
    forall b | b in t.attempts ensures AttemptOk(cfg, t, b, t.attempts[b]) { EnqueueDocumentAttemptOk(cfg, s, r, b); }
    KeepHandled(cfg, s, t, r, s.requests[r].tx);
  }

  // A document session is taken.

  lemma TakeHandles(s: State, r: RequestId, token: Token)
    requires token in s.documentSessions && s.documentSessions[token].tx in s.trails
    ensures Handles(s, DoTakeDocumentSession(s, r, token), r, s.documentSessions[token].tx)
  {
  }

  lemma TakeTxOk(cfg: Settings, s: State, r: RequestId, token: Token)
    requires token in s.documentSessions && Revealed(s, s.documentSessions[token].tx, token)
    requires TxOk(cfg, s, s.documentSessions[token].tx)
    ensures TxOk(cfg, DoTakeDocumentSession(s, r, token), s.documentSessions[token].tx)
  {
    var t, tx := DoTakeDocumentSession(s, r, token), s.documentSessions[token].tx;
    TakeTrailOk(cfg, s, r, token);
    hide TrailOk, Revealed;
  }

  lemma TakeTrailOk(cfg: Settings, s: State, r: RequestId, token: Token)
    requires token in s.documentSessions && Revealed(s, s.documentSessions[token].tx, token)
    requires TxOk(cfg, s, s.documentSessions[token].tx)
    ensures var t, tx := DoTakeDocumentSession(s, r, token), s.documentSessions[token].tx;
            tx in t.trails && TrailOk(t, tx, t.trails[tx])
  {
    hide RefOk, JobOk;
  }

  lemma TakeOthersOk(cfg: Settings, s: State, r: RequestId, token: Token)
    requires Inv(cfg, s) && r !in s.requests && token in s.documentSessions && s.documentSessions[token].tx in s.trails
    ensures var t := DoTakeDocumentSession(s, r, token);
            && (forall q | q in t.requests :: RequestOk(t, q, t.requests[q]))
            && (forall k | k in t.documentSessions :: DocumentSessionOk(t, k, t.documentSessions[k]))
  {
    hide AttemptOk;
    var t := DoTakeDocumentSession(s, r, token);
    var tx := s.documentSessions[token].tx;
    assert TxOk(cfg, s, tx);
    assert DocumentSessionOk(s, token, s.documentSessions[token]);
    forall q | q in t.requests ensures RequestOk(t, q, t.requests[q]) {
      if q != r { assert RequestOk(s, q, s.requests[q]); }
    }
    forall k | k in t.documentSessions ensures DocumentSessionOk(t, k, t.documentSessions[k]) {
      assert DocumentSessionOk(s, k, s.documentSessions[k]);
    }
  }

  lemma TakeAttemptOk(cfg: Settings, s: State, r: RequestId, token: Token, b: AttemptId)
    requires token in s.documentSessions && s.documentSessions[token].tx in s.trails && b in s.attempts
    requires AttemptOk(cfg, s, b, s.attempts[b])
    ensures AttemptOk(cfg, DoTakeDocumentSession(s, r, token), b, s.attempts[b])
  {
  }

  lemma KeepTakeDocumentSession(cfg: Settings, s: State, r: RequestId, token: Token)
    requires Inv(cfg, s) && r !in s.requests && token in s.documentSessions
    requires Revealed(s, s.documentSessions[token].tx, token)
    ensures Inv(cfg, DoTakeDocumentSession(s, r, token))
  {
    hide AttemptOk, TxOk, RequestOk, DocumentSessionOk, Handles;
    var t := DoTakeDocumentSession(s, r, token);
    TakeHandles(s, r, token);
    TakeTxOk(cfg, s, r, token);
    TakeOthersOk(cfg, s, r, token);
    forall b | b in t.attempts ensures AttemptOk(cfg, t, b, t.attempts[b]) { TakeAttemptOk(cfg, s, r, token, b); }
    KeepHandled(cfg, s, t, r, s.documentSessions[token].tx);
  }

  // ----- every step of a handler -----

  lemma KeepHttp(cfg: Settings, s: State, r: RequestId, h: HttpEvent)
    requires Inv(cfg, s) && HttpEnabled(cfg, s, r, h)
    ensures Inv(cfg, HttpApply(cfg, s, r, h))
  {
    hide Inv, RequestOk;
    match h
    case TakeSession(token) => KeepRequest(cfg, s, HttpApply(cfg, s, r, h), r);
    case Admit(tx) => KeepAdmit(cfg, s, r, tx);
    case PutFrame(m) => KeepPutFrame(cfg, s, r, m);
    case EnqueueFace => KeepEnqueueFace(cfg, s, r);
    case TakeDocumentSession(token) => KeepTakeDocumentSession(cfg, s, r, token);
    case AdmitDocument => KeepAdmitDocument(cfg, s, r);
    case PutDocument(m) => KeepPutDocument(cfg, s, r, m);
    case PutSelfie(m) => KeepPutSelfie(cfg, s, r, m);
    case EnqueueDocument => KeepEnqueueDocument(cfg, s, r);
    case Reject => KeepRequest(cfg, s, HttpApply(cfg, s, r, h), r);
  }

  lemma KeepRequest(cfg: Settings, s: State, t: State, r: RequestId)
    requires Inv(cfg, s) && r in t.requests && (t.requests[r].Closed? || t.requests[r].TookSession?)
    requires t == s.(sessions := t.sessions, consumed := t.consumed, requests := s.requests[r := t.requests[r]])
    ensures Inv(cfg, t)
  {
    hide Inv;
    KeepQuiet(cfg, s, t);
  }

  lemma KeepAdmitDocument(cfg: Settings, s: State, r: RequestId)
    requires Inv(cfg, s) && r in s.requests && s.requests[r].TookDocumentSession?
    ensures Inv(cfg, DoAdmitDocument(s, r))
  {
    assert RequestOk(s, r, s.requests[r]);
    hide Inv;
    KeepQuiet(cfg, s, DoAdmitDocument(s, r));
  }
}
