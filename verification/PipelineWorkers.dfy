/** Every step of a job processor keeps the invariant. */
module PipelineWorkers {
  import opened Decision
  import opened Pipeline
  import opened PipelineInvariant
  import Redis

  // Each of the following moves keeps the attempt in order.

  lemma GetOk(cfg: Settings, s: State, a: AttemptId)
    requires a in s.attempts && s.attempts[a].pc.Getting? && RefOk(cfg, s, MainRef(s.attempts[a].job))
    requires AttemptOk(cfg, s, a, s.attempts[a])
    ensures var t := DoGet(s, a); AttemptOk(cfg, t, a, t.attempts[a])
  {
  }

  lemma GetSelfieOk(cfg: Settings, s: State, a: AttemptId)
    requires a in s.attempts && s.attempts[a].pc.GettingSelfie? && RefOk(cfg, s, SelfieRef(s.attempts[a].job.tx))
    requires AttemptOk(cfg, s, a, s.attempts[a])
    ensures var t := DoGetSelfie(s, a); AttemptOk(cfg, t, a, t.attempts[a])
  {
  }

  lemma ReadTenantOk(cfg: Settings, s: State, a: AttemptId)
    requires At(s, a) && (s.attempts[a].pc.Scoping? || s.attempts[a].pc.Deciding?)
    requires s.jobs[s.attempts[a].job] in s.requiredAge
    requires AttemptOk(cfg, s, a, s.attempts[a])
    ensures AttemptOk(cfg, DoReadTenant(cfg, s, a), a, DoReadTenant(cfg, s, a).attempts[a])
  {
  }

  lemma AnalyzeOk(cfg: Settings, s: State, a: AttemptId, result: AgeResult)
    requires a in s.attempts && s.attempts[a].pc.Analyzing?
    requires AttemptOk(cfg, s, a, s.attempts[a])
    ensures var t := DoAnalyze(s, a, result); AttemptOk(cfg, t, a, t.attempts[a])
  {
  }

  lemma VerifyOk(cfg: Settings, s: State, a: AttemptId, check: DocumentCheck)
    requires a in s.attempts && s.attempts[a].pc.Verifying?
    requires AttemptOk(cfg, s, a, s.attempts[a])
    ensures var t := DoVerify(s, a, check); AttemptOk(cfg, t, a, t.attempts[a])
  {
  }

  lemma DeleteOk(cfg: Settings, s: State, a: AttemptId)
    requires a in s.attempts && s.attempts[a].pc.Deleting?
    requires AttemptOk(cfg, s, a, s.attempts[a])
    ensures var t := DoDelete(s, a); AttemptOk(cfg, t, a, t.attempts[a])
  {
  }

  lemma DeleteSelfieOk(cfg: Settings, s: State, a: AttemptId)
    requires a in s.attempts && s.attempts[a].pc.DeletingSelfie?
    requires AttemptOk(cfg, s, a, s.attempts[a])
    ensures var t := DoDeleteSelfie(s, a); AttemptOk(cfg, t, a, t.attempts[a])
  {
  }

  lemma LeaveOk(cfg: Settings, s: State, a: AttemptId, pc: Pc)
    requires a in s.attempts && (pc.Deleting? || pc.Failed? || pc.Dead? || (pc.Done? && s.attempts[a].pc.Discarding?))
    requires AttemptOk(cfg, s, a, s.attempts[a])
    ensures var t := Goto(s, a, pc); AttemptOk(cfg, t, a, t.attempts[a])
  {
  }

  /** A trail that only got longer. */
  predicate Grew(u: Trail, v: Trail) {
    && v.tenant == u.tenant && v.session == u.session && v.request == u.request
          && v.documentRequest == u.documentRequest
    && u.issued <= v.issued && u.audits <= v.audits && u.records <= v.records && u.sent <= v.sent
  }

  /** The once-key holder a writes: its transaction's trail and rows, its own progress, and
      possibly a document session. */
  ghost predicate Writes(s: State, t: State, a: AttemptId) {
    && At(s, a) && Holding(s.attempts[a].pc) && a in t.attempts && t.attempts[a].job == s.attempts[a].job
    && var tx := s.attempts[a].job.tx;
    && tx in t.trails && Grew(s.trails[tx], t.trails[tx])
    && t == s.(audit := t.audit, records := t.records, documentSessions := t.documentSessions, tokens := t.tokens,
               trails := s.trails[tx := t.trails[tx]], attempts := s.attempts[a := t.attempts[a]])
    && (s.documentSessions.Keys <= s.tokens ==> t.documentSessions.Keys <= t.tokens)
    && (forall x | x != tx :: SameRow(s.audit, t.audit, x) && SameRow(s.records, t.records, x))
    && (forall k | k in t.documentSessions && k !in s.documentSessions :: t.documentSessions[k].tx == tx)
    && (forall k | k in t.documentSessions && k in s.documentSessions :: t.documentSessions[k] == s.documentSessions[k])
    // only a send may come after a document session can be taken
    && (s.attempts[a].job.phase.FacePhase? && s.attempts[a].pc.Dispatching? ==>
          t.trails[tx].audits == s.trails[tx].audits && t.trails[tx].records == s.trails[tx].records)
  }

  /** Attempts other than the writer do not notice. */
  lemma BystanderOk(cfg: Settings, s: State, t: State, a: AttemptId, b: AttemptId)
    requires Writes(s, t, a) && b in s.attempts && b != a && s.attempts[b].job.tx == s.attempts[a].job.tx
    requires AttemptOk(cfg, s, a, s.attempts[a]) && AttemptOk(cfg, s, b, s.attempts[b])
    requires TxOk(cfg, s, s.attempts[a].job.tx)
    ensures AttemptOk(cfg, t, b, t.attempts[b])
  {
    hide RefOk, RowOk, PayloadOk;
    if Holding(s.attempts[b].pc) {
      assert s.attempts[b].job != s.attempts[a].job;
      assert JobOk(cfg, s, s.attempts[a].job) && JobOk(cfg, s, s.attempts[b].job);
    }
  }

  lemma WriteAttemptsOk(cfg: Settings, s: State, t: State, a: AttemptId)
    requires Inv(cfg, s) && Writes(s, t, a) && AttemptOk(cfg, t, a, t.attempts[a])
    ensures forall b | b in t.attempts
              && t.attempts[b].job.tx == s.attempts[a].job.tx :: AttemptOk(cfg, t, b, t.attempts[b])
  {
    var tx := s.attempts[a].job.tx;
    assert TxOk(cfg, s, tx) && AttemptOk(cfg, s, a, s.attempts[a]);
    assert t.attempts == s.attempts[a := t.attempts[a]];
    hide TxOk, AttemptOk, Writes;
    forall b | b in t.attempts && t.attempts[b].job.tx == tx ensures AttemptOk(cfg, t, b, t.attempts[b]) {
      if b != a {
        assert AttemptOk(cfg, s, b, s.attempts[b]);
        BystanderOk(cfg, s, t, a, b);
      }
    }
  }

  lemma WriteOthersOk(cfg: Settings, s: State, t: State, a: AttemptId)
    requires Inv(cfg, s) && Writes(s, t, a)
    requires forall k | k in t.documentSessions
               && k !in s.documentSessions :: DocumentSessionOk(t, k, t.documentSessions[k])
    ensures t.documentSessions.Keys <= t.tokens
    ensures forall r | r in t.requests :: RequestOk(t, r, t.requests[r])
    ensures forall k | k in t.documentSessions :: DocumentSessionOk(t, k, t.documentSessions[k])
  {
    hide TxOk, AttemptOk;
    forall r | r in t.requests ensures RequestOk(t, r, t.requests[r]) { assert RequestOk(s, r, s.requests[r]); }
    forall k | k in t.documentSessions ensures DocumentSessionOk(t, k, t.documentSessions[k]) {
      if k in s.documentSessions { assert DocumentSessionOk(s, k, s.documentSessions[k]); }
    }
  }

  lemma KeepWrite(cfg: Settings, s: State, t: State, a: AttemptId)
    requires Inv(cfg, s) && Writes(s, t, a)
    requires TrailOk(t, s.attempts[a].job.tx, t.trails[s.attempts[a].job.tx])
    requires AttemptOk(cfg, t, a, t.attempts[a])
    requires forall k | k in t.documentSessions
               && k !in s.documentSessions :: DocumentSessionOk(t, k, t.documentSessions[k])
    ensures Inv(cfg, t)
  {
    hide TxOk, AttemptOk, Touches, TrailOk, DocumentSessionOk, RequestOk;
    var tx := s.attempts[a].job.tx;
    assert TxOk(cfg, s, tx);
    WriteAttemptsOk(cfg, s, t, a);
    WriteOthersOk(cfg, s, t, a);
    WriteTouches(s, t, a);
    WriteTxOk(cfg, s, t, a);
    hide Inv, Writes;
    assert InvAt(cfg, t, tx);
    Localize(cfg, s, t, tx);
  }

  lemma WriteTouches(s: State, t: State, a: AttemptId)
    requires Writes(s, t, a)
    ensures Touches(s, t, s.attempts[a].job.tx)
  {
  }

  lemma WriteTxOk(cfg: Settings, s: State, t: State, a: AttemptId)
    requires Writes(s, t, a) && TxOk(cfg, s, s.attempts[a].job.tx)
    requires TrailOk(t, s.attempts[a].job.tx, t.trails[s.attempts[a].job.tx])
    ensures TxOk(cfg, t, s.attempts[a].job.tx)
  {
    hide TrailOk;
  }

  // Each of the following writes keeps the trail and the writer in order.

  lemma IssueWrites(s: State, a: AttemptId, token: Token)
    requires At(s, a) && s.attempts[a].pc.Issuing? && token !in s.tokens && s.documentSessions.Keys <= s.tokens
    ensures Writes(s, DoIssue(s, a, token), a)
  {
  }

  lemma IssueTrailOk(cfg: Settings, s: State, a: AttemptId, token: Token)
    requires At(s, a) && s.attempts[a].pc.Issuing? && AttemptOk(cfg, s, a, s.attempts[a])
    requires TrailOk(s, s.attempts[a].job.tx, s.trails[s.attempts[a].job.tx]) && JobOk(cfg, s, s.attempts[a].job)
    ensures var t := DoIssue(s, a, token); TrailOk(t, s.attempts[a].job.tx, t.trails[s.attempts[a].job.tx])
  {
  }

  lemma IssueAttemptOk(cfg: Settings, s: State, a: AttemptId, token: Token)
    requires At(s, a) && s.attempts[a].pc.Issuing? && AttemptOk(cfg, s, a, s.attempts[a])
    requires TrailOk(s, s.attempts[a].job.tx, s.trails[s.attempts[a].job.tx])
    ensures var t := DoIssue(s, a, token); AttemptOk(cfg, t, a, t.attempts[a])
  {
  }

  lemma AuditWrites(s: State, a: AttemptId)
    requires At(s, a) && s.attempts[a].pc.Auditing?
    ensures Writes(s, DoAudit(s, a), a)
  {
  }

  lemma AuditTrailOk(cfg: Settings, s: State, a: AttemptId)
    requires At(s, a) && s.attempts[a].pc.Auditing? && AttemptOk(cfg, s, a, s.attempts[a])
    requires TrailOk(s, s.attempts[a].job.tx, s.trails[s.attempts[a].job.tx]) && JobOk(cfg, s, s.attempts[a].job)
    ensures var t := DoAudit(s, a); TrailOk(t, s.attempts[a].job.tx, t.trails[s.attempts[a].job.tx])
  {
  }

  lemma AuditAttemptOk(cfg: Settings, s: State, a: AttemptId)
    requires At(s, a) && s.attempts[a].pc.Auditing? && AttemptOk(cfg, s, a, s.attempts[a])
    requires TrailOk(s, s.attempts[a].job.tx, s.trails[s.attempts[a].job.tx])
    ensures var t := DoAudit(s, a); AttemptOk(cfg, t, a, t.attempts[a])
  {
  }

  lemma RecordWrites(s: State, a: AttemptId)
    requires At(s, a) && s.attempts[a].pc.Recording?
    ensures Writes(s, DoRecord(s, a), a)
  {
  }

  lemma RecordTrailOk(cfg: Settings, s: State, a: AttemptId)
    requires At(s, a) && s.attempts[a].pc.Recording? && AttemptOk(cfg, s, a, s.attempts[a])
    requires TrailOk(s, s.attempts[a].job.tx, s.trails[s.attempts[a].job.tx]) && JobOk(cfg, s, s.attempts[a].job)
    ensures var t := DoRecord(s, a); TrailOk(t, s.attempts[a].job.tx, t.trails[s.attempts[a].job.tx])
  {
  }

  lemma RecordAttemptOk(cfg: Settings, s: State, a: AttemptId)
    requires At(s, a) && s.attempts[a].pc.Recording? && AttemptOk(cfg, s, a, s.attempts[a])
    requires TrailOk(s, s.attempts[a].job.tx, s.trails[s.attempts[a].job.tx])
    ensures var t := DoRecord(s, a); AttemptOk(cfg, t, a, t.attempts[a])
  {
  }

  lemma SendWrites(cfg: Settings, s: State, a: AttemptId, ok: bool)
    requires At(s, a) && s.attempts[a].pc.Dispatching?
    ensures Writes(s, DoSend(cfg, s, a, ok), a)
  {
  }

  lemma SendTrailOk(cfg: Settings, s: State, a: AttemptId, ok: bool)
    requires At(s, a) && s.attempts[a].pc.Dispatching? && AttemptOk(cfg, s, a, s.attempts[a])
    requires TrailOk(s, s.attempts[a].job.tx, s.trails[s.attempts[a].job.tx]) && JobOk(cfg, s, s.attempts[a].job)
    ensures var t := DoSend(cfg, s, a, ok); TrailOk(t, s.attempts[a].job.tx, t.trails[s.attempts[a].job.tx])
  {
  }

  lemma SendAttemptOk(cfg: Settings, s: State, a: AttemptId, ok: bool)
    requires At(s, a) && s.attempts[a].pc.Dispatching? && AttemptOk(cfg, s, a, s.attempts[a])
    requires TrailOk(s, s.attempts[a].job.tx, s.trails[s.attempts[a].job.tx])
    ensures var t := DoSend(cfg, s, a, ok); AttemptOk(cfg, t, a, t.attempts[a])
  {
  }

  // ----- taking the once-key -----

  /** A timely attempt that finds the key free is the first to find it so. */
  lemma FirstAcquire(cfg: Settings, s: State, a: AttemptId)
    requires At(s, a) && s.attempts[a].pc.Acquiring? && AttemptOk(cfg, s, a, s.attempts[a])
    requires JobOk(cfg, s, s.attempts[a].job)
    requires s.now - s.attempts[a].pc.gotAt <= cfg.onceTtlMs - cfg.frameTtlSeconds * 1000
    requires !Redis.Live(s.once, s.attempts[a].job, s.now)
    ensures HoldersOf(s, s.attempts[a].job) == []
  {
  }

  lemma AcquireTouches(cfg: Settings, s: State, a: AttemptId)
    requires a in s.attempts
    ensures Touches(s, DoAcquire(cfg, s, a), s.attempts[a].job.tx)
  {
  }

  lemma AcquireTxOk(cfg: Settings, s: State, a: AttemptId)
    requires At(s, a) && HoldersOf(s, s.attempts[a].job) == [] && !Redis.Live(s.once, s.attempts[a].job, s.now)
    requires TxOk(cfg, s, s.attempts[a].job.tx) && JobOk(cfg, s, s.attempts[a].job)
    requires RefOk(cfg, s, LastRef(s.attempts[a].job))
    ensures TxOk(cfg, DoAcquire(cfg, s, a), s.attempts[a].job.tx)
  {
    var tx, t := s.attempts[a].job.tx, DoAcquire(cfg, s, a);
    assert TrailOk(t, tx, t.trails[tx]) by { AcquireTrailOk(cfg, s, a); }
    AcquireJobOk(cfg, s, a, Job(tx, FacePhase));
    AcquireJobOk(cfg, s, a, Job(tx, DocumentPhase));
    hide TrailOk, JobOk;
  }

  lemma AcquireTrailOk(cfg: Settings, s: State, a: AttemptId)
    requires At(s, a) && HoldersOf(s, s.attempts[a].job) == [] && !Redis.Live(s.once, s.attempts[a].job, s.now)
    requires TrailOk(s, s.attempts[a].job.tx, s.trails[s.attempts[a].job.tx])
    ensures TrailOk(DoAcquire(cfg, s, a), s.attempts[a].job.tx, s.trails[s.attempts[a].job.tx])
  {
    hide WritesOk, PayloadOk, RowOk;
  }

  lemma AcquireJobOk(cfg: Settings, s: State, a: AttemptId, job: Job)
    requires At(s, a) && HoldersOf(s, s.attempts[a].job) == [] && !Redis.Live(s.once, s.attempts[a].job, s.now)
    requires JobOk(cfg, s, s.attempts[a].job) && RefOk(cfg, s, LastRef(s.attempts[a].job)) && JobOk(cfg, s, job)
    ensures JobOk(cfg, DoAcquire(cfg, s, a), job)
  {
  }

  lemma AcquireAttemptOk(cfg: Settings, s: State, a: AttemptId, b: AttemptId)
    requires At(s, a) && HoldersOf(s, s.attempts[a].job) == [] && !Redis.Live(s.once, s.attempts[a].job, s.now)
    requires s.attempts[a].pc.Acquiring? && b in s.attempts
    requires TrailOk(s, s.attempts[a].job.tx, s.trails[s.attempts[a].job.tx]) && JobOk(cfg, s, s.attempts[a].job)
    requires AttemptOk(cfg, s, a, s.attempts[a]) && AttemptOk(cfg, s, b, s.attempts[b])
    ensures AttemptOk(cfg, DoAcquire(cfg, s, a), b, DoAcquire(cfg, s, a).attempts[b])
  {
  }

  lemma KeepAcquire(cfg: Settings, s: State, a: AttemptId)
    requires Inv(cfg, s) && At(s, a) && s.attempts[a].pc.Acquiring?
    requires s.now - s.attempts[a].pc.gotAt <= cfg.onceTtlMs - cfg.frameTtlSeconds * 1000
    ensures Inv(cfg, DoAcquire(cfg, s, a))
  {
    hide AttemptOk, TxOk, JobOk, RefOk, TrailOk, RequestOk, DocumentSessionOk, Touches;
    Here(cfg, s, a);
    var t := DoAcquire(cfg, s, a);
    if Redis.Live(s.once, s.attempts[a].job, s.now) {
      LeaveOk(cfg, s, a, Deleting);
      assert t == Goto(s, a, Deleting);
      KeepMove(cfg, s, t, a);
    } else {
      var tx := s.attempts[a].job.tx;
      FirstAcquire(cfg, s, a);
      AcquireTouches(cfg, s, a);
      AcquireTxOk(cfg, s, a);
      forall b | b in t.attempts ensures AttemptOk(cfg, t, b, t.attempts[b]) {
        AcquireAttemptOk(cfg, s, a, b);
      }
      AcquireOthersOk(cfg, s, a);
      Localize(cfg, s, t, tx);
    }
  }

  /** Requests and document sessions do not notice. */
  lemma AcquireOthersOk(cfg: Settings, s: State, a: AttemptId)
    requires Inv(cfg, s) && a in s.attempts
    ensures var t := DoAcquire(cfg, s, a);
            && (forall r | r in t.requests :: RequestOk(t, r, t.requests[r]))
            && (forall k | k in t.documentSessions :: DocumentSessionOk(t, k, t.documentSessions[k]))
  {
  }

  // ----- every step of a processor -----

  lemma KeepWritten(cfg: Settings, s: State, a: AttemptId, w: WorkEvent)
    requires Inv(cfg, s) && WorkEnabled(cfg, s, a, w)
    requires w.IssueToken? || w.WriteAudit? || w.WriteRecord? || w.Send?
    ensures Inv(cfg, WorkApply(cfg, s, a, w))
  {
    hide AttemptOk, TrailOk, JobOk, RefOk, Writes, TxOk;
    Here(cfg, s, a);
    match w {
      case IssueToken(token) =>
        IssueWrites(s, a, token);
        IssueTrailOk(cfg, s, a, token);
        IssueAttemptOk(cfg, s, a, token);
      case WriteAudit => AuditWrites(s, a); AuditTrailOk(cfg, s, a); AuditAttemptOk(cfg, s, a);
      case WriteRecord => RecordWrites(s, a); RecordTrailOk(cfg, s, a); RecordAttemptOk(cfg, s, a);
      case Send(ok) => SendWrites(cfg, s, a, ok); SendTrailOk(cfg, s, a, ok); SendAttemptOk(cfg, s, a, ok);
    }
    NewSessionOk(cfg, s, a, w);
    hide Inv;
    KeepWrite(cfg, s, WorkApply(cfg, s, a, w), a);
  }

  lemma NewSessionOk(cfg: Settings, s: State, a: AttemptId, w: WorkEvent)
    requires Inv(cfg, s) && WorkEnabled(cfg, s, a, w)
    requires w.IssueToken? || w.WriteAudit? || w.WriteRecord? || w.Send?
    ensures var t := WorkApply(cfg, s, a, w);
            forall k | k in t.documentSessions
                && k !in s.documentSessions :: DocumentSessionOk(t, k, t.documentSessions[k])
  {
    hide Inv;
    match w
    case IssueToken(token) =>
      Here(cfg, s, a);
      NewTokenOk(cfg, s, a, token);
    case WriteAudit => assert DoAudit(s, a).documentSessions == s.documentSessions;
    case WriteRecord => assert DoRecord(s, a).documentSessions == s.documentSessions;
    case Send(ok) => assert DoSend(cfg, s, a, ok).documentSessions == s.documentSessions;
  }

  lemma NewTokenOk(cfg: Settings, s: State, a: AttemptId, token: Token)
    requires At(s, a) && s.attempts[a].pc.Issuing? && AttemptOk(cfg, s, a, s.attempts[a])
    requires JobOk(cfg, s, s.attempts[a].job) && TrailOk(s, s.attempts[a].job.tx, s.trails[s.attempts[a].job.tx])
    ensures var t := DoIssue(s, a, token);
            token in t.documentSessions && DocumentSessionOk(t, token, t.documentSessions[token])
  {
    hide RowOk, PayloadOk;
  }

  lemma StartOk(cfg: Settings, s: State, a: AttemptId, job: Job)
    requires a !in s.attempts && job in s.jobs && JobOk(cfg, s, job)
    ensures var t := DoStart(s, a, job); AttemptOk(cfg, t, a, t.attempts[a])
  {
  }

  lemma DiscardTouches(s: State, a: AttemptId)
    requires a in s.attempts
    ensures Touches(s, DoDiscard(s, a, true), s.attempts[a].job.tx)
  {
  }

  lemma DiscardTxOk(cfg: Settings, s: State, a: AttemptId)
    requires a in s.attempts && s.attempts[a].pc.Discarding? && AttemptOk(cfg, s, a, s.attempts[a])
    requires TxOk(cfg, s, s.attempts[a].job.tx)
    ensures TxOk(cfg, DoDiscard(s, a, true), s.attempts[a].job.tx)
  {
    hide TrailOk, FaceAttemptOk, DocumentAttemptOk;
    var tx := s.attempts[a].job.tx;
    assert TrailOk(DoDiscard(s, a, true), tx, s.trails[tx]) by { TrailUnmoved(s, a); }
  }

  lemma TrailUnmoved(s: State, a: AttemptId)
    requires a in s.attempts && s.attempts[a].job.tx in s.trails
    requires TrailOk(s, s.attempts[a].job.tx, s.trails[s.attempts[a].job.tx])
    ensures TrailOk(DoDiscard(s, a, true), s.attempts[a].job.tx, s.trails[s.attempts[a].job.tx])
  {
  }

  lemma DiscardAttemptOk(cfg: Settings, s: State, a: AttemptId, b: AttemptId)
    requires a in s.attempts && s.attempts[a].pc.Discarding? && b in s.attempts
    requires AttemptOk(cfg, s, a, s.attempts[a]) && AttemptOk(cfg, s, b, s.attempts[b])
    ensures var t := DoDiscard(s, a, true); AttemptOk(cfg, t, b, t.attempts[b])
  {
  }

  lemma KeepDiscard(cfg: Settings, s: State, a: AttemptId)
    requires Inv(cfg, s) && a in s.attempts && s.attempts[a].pc.Discarding?
    ensures Inv(cfg, DoDiscard(s, a, true))
  {
    hide AttemptOk, TxOk, Touches, DocumentSessionOk;
    var t := DoDiscard(s, a, true);
    DiscardTouches(s, a);
    DiscardTxOk(cfg, s, a);
    forall b | b in t.attempts ensures AttemptOk(cfg, t, b, t.attempts[b]) { DiscardAttemptOk(cfg, s, a, b); }
    forall r | r in t.requests ensures RequestOk(t, r, t.requests[r]) { assert RequestOk(s, r, s.requests[r]); }
    forall k | k in t.documentSessions ensures DocumentSessionOk(t, k, t.documentSessions[k]) {
      SessionUnmoved(s, t, k, s.documentSessions[k]);
    }
    Localize(cfg, s, t, s.attempts[a].job.tx);
  }

  lemma SessionUnmoved(s: State, t: State, k: Token, d: DocumentSession)
    requires DocumentSessionOk(s, k, d) && t.trails == s.trails
    ensures DocumentSessionOk(t, k, d)
  {
  }

  /** Events that only move the attempt on inside the try block. */
  predicate GoesOn(w: WorkEvent) {
    w.GetMedia? || w.GetSelfie? || w.ReadTenant? || w.Analyze? || w.VerifyDocument?
  }

  lemma KeepGoing(cfg: Settings, s: State, a: AttemptId, w: WorkEvent)
    requires Inv(cfg, s) && WorkEnabled(cfg, s, a, w) && GoesOn(w)
    ensures Inv(cfg, WorkApply(cfg, s, a, w))
  {
    hide AttemptOk, TrailOk, JobOk, RefOk, TxOk, DocumentSessionOk, RequestOk, AfterTenant, FaceConfig,
         DecideVerification;
    Here(cfg, s, a);
    match w {
      case GetMedia => GetOk(cfg, s, a);
      case GetSelfie => SelfieHere(cfg, s, a); GetSelfieOk(cfg, s, a);
      case ReadTenant => ReadTenantOk(cfg, s, a);
      case Analyze(result) => AnalyzeOk(cfg, s, a, result);
      case VerifyDocument(check) => VerifyOk(cfg, s, a, check);
      case _ =>
    }
    hide Inv;
    KeepMove(cfg, s, WorkApply(cfg, s, a, w), a);
  }

  lemma KeepDelete(cfg: Settings, s: State, a: AttemptId)
    requires Inv(cfg, s) && a in s.attempts && s.attempts[a].pc.Deleting?
    ensures Inv(cfg, DoDelete(s, a))
  {
    hide AttemptOk, TrailOk, JobOk, RefOk, TxOk, DocumentSessionOk, RequestOk;
    Here(cfg, s, a);
    DeleteOk(cfg, s, a);
    KeepMove(cfg, s, DoDelete(s, a), a);
  }

  lemma KeepDeleteSelfie(cfg: Settings, s: State, a: AttemptId)
    requires Inv(cfg, s) && a in s.attempts && s.attempts[a].pc.DeletingSelfie?
    ensures Inv(cfg, DoDeleteSelfie(s, a))
  {
    hide AttemptOk, TrailOk, JobOk, RefOk, TxOk, DocumentSessionOk, RequestOk;
    Here(cfg, s, a);
    DeleteSelfieOk(cfg, s, a);
    KeepMove(cfg, s, DoDeleteSelfie(s, a), a);
  }

  lemma KeepLeave(cfg: Settings, s: State, a: AttemptId, pc: Pc)
    requires Inv(cfg, s) && a in s.attempts
    requires pc.Deleting? || pc.Failed? || pc.Dead? || (pc.Done? && s.attempts[a].pc.Discarding?)
    ensures Inv(cfg, Goto(s, a, pc))
  {
    hide AttemptOk, TrailOk, JobOk, RefOk, TxOk, DocumentSessionOk, RequestOk;
    Here(cfg, s, a);
    LeaveOk(cfg, s, a, pc);
    KeepMove(cfg, s, Goto(s, a, pc), a);
  }

  lemma KeepMoved(cfg: Settings, s: State, a: AttemptId, w: WorkEvent)
    requires Inv(cfg, s) && WorkEnabled(cfg, s, a, w)
    requires w.Throw? || w.Delete? || w.DeleteSelfie? || w.DeleteFails? || w.Crash? || w == Discard(false)
    ensures Inv(cfg, WorkApply(cfg, s, a, w))
  {
    hide Inv;
    match w {
      case Delete => KeepDelete(cfg, s, a);
      case DeleteSelfie => KeepDeleteSelfie(cfg, s, a);
      case Throw => KeepLeave(cfg, s, a, Deleting);
      case DeleteFails => KeepLeave(cfg, s, a, Failed);
      case Crash => KeepLeave(cfg, s, a, Dead);
      case Discard(_) => KeepLeave(cfg, s, a, Done);
      case _ =>
    }
  }

  lemma SelfieHere(cfg: Settings, s: State, a: AttemptId)
    requires Inv(cfg, s) && a in s.attempts
    ensures RefOk(cfg, s, SelfieRef(s.attempts[a].job.tx))
  {
    assert TxOk(cfg, s, s.attempts[a].job.tx);
  }

  lemma KeepWork(cfg: Settings, s: State, a: AttemptId, w: WorkEvent)
    requires Inv(cfg, s) && WorkEnabled(cfg, s, a, w) && Timely(cfg, s, Work(a, w))
    ensures Inv(cfg, WorkApply(cfg, s, a, w))
  {
    hide AttemptOk, TrailOk, JobOk, RefOk, TxOk, DocumentSessionOk, RequestOk;
    if w.IssueToken? || w.WriteAudit? || w.WriteRecord? || w.Send? {
      KeepWritten(cfg, s, a, w);
    } else if w.Acquire? {
      KeepAcquire(cfg, s, a);
    } else if w == Discard(true) {
      KeepDiscard(cfg, s, a);
    } else if w.Start? {
      JobHere(cfg, s, w.job);
      StartOk(cfg, s, a, w.job);
      KeepMove(cfg, s, DoStart(s, a, w.job), a);
    } else if GoesOn(w) {
      KeepGoing(cfg, s, a, w);
    } else {
      Here(cfg, s, a);
      KeepMoved(cfg, s, a, w);
    }
  }
}
