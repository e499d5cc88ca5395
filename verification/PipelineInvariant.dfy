/** What every timely step of the pipeline keeps. */
module PipelineInvariant {
  import opened Wrappers
  import opened Decision
  import opened Pipeline

  // ----- verdicts -----

  /** The verdict is what the rule says about its own basis. */
  predicate FaceVerdict(v: Verdict) {
    v.basis.ByFace? && v.status == DecideVerification(v.basis.result, v.basis.cfg)
  }

  predicate DocumentVerdict(v: Verdict) {
    && v.basis.ByDocument? && v.status != DocumentoRequerido
    && v.status == DecideDocument(AgeFromDocument(v.basis.check.birth, v.basis.at), v.basis.check,
                                   v.basis.cutoff, v.basis.minFaceMatch)
  }

  // ----- requests -----

  predicate DocumentRequestOk(s: State, r: RequestId, tx: TxId, tenant: TenantId) {
    && tx in s.trails && s.trails[tx].documentRequest == Some(r) && s.trails[tx].tenant == tenant
    && Job(tx, DocumentPhase) !in s.jobs
  }

  predicate RequestOk(s: State, r: RequestId, q: Request) {
    match q
    case TookSession(_, _, _) => true
    case Admitted(tx, tenant) =>
      && tx in s.trails && s.trails[tx].request == r && s.trails[tx].tenant == tenant
      && FrameRef(tx) !in s.puts && Job(tx, FacePhase) !in s.jobs
    case Stored(tx, tenant) =>
      && tx in s.trails && s.trails[tx].request == r && s.trails[tx].tenant == tenant
      && FrameRef(tx) in s.puts && Job(tx, FacePhase) !in s.jobs
    case TookDocumentSession(tx, tenant, _) =>
      DocumentRequestOk(s, r, tx, tenant) && DocumentRef(tx) !in s.puts && SelfieRef(tx) !in s.puts
    case DocumentAdmitted(tx, tenant) =>
      DocumentRequestOk(s, r, tx, tenant) && DocumentRef(tx) !in s.puts && SelfieRef(tx) !in s.puts
    case DocumentStored(tx, tenant) =>
      DocumentRequestOk(s, r, tx, tenant) && DocumentRef(tx) in s.puts && SelfieRef(tx) !in s.puts
    case BothStored(tx, tenant) =>
      DocumentRequestOk(s, r, tx, tenant) && DocumentRef(tx) in s.puts && SelfieRef(tx) in s.puts
    case Closed => true
  }

  // ----- transactions -----

  predicate PayloadOk(t: Trail, p: Payload) {
    && p.isOver18 == IsOver18(p.status)
    && (exists i | 0 <= i < |t.records| :: t.records[i].status == p.status)
    && (p.token.Some? ==> p.status == DocumentoRequerido && p.token.value in t.issued
                          && |t.records| >= 1 && t.records[0].status == DocumentoRequerido)
  }

  /** The row of a table agrees with the last write to it. */
  predicate RowOk(rows: map<TxId, Row>, tx: TxId, tenant: TenantId, writes: seq<Verdict>) {
    if writes == [] then tx !in rows else tx in rows && rows[tx] == Row(tenant, writes[|writes| - 1])
  }

  /** Audit rows go nothing, verdict of the face check, and after documento_requerido at most
      one verdict of the document check; the record follows the audit row. */
  predicate WritesOk(t: Trail) {
    && |t.audits| <= 2
    && |t.records| <= |t.audits| <= |t.records| + 1
    && t.records == t.audits[..|t.records|]
    && (|t.audits| >= 1 ==> FaceVerdict(t.audits[0]))
    && (|t.audits| == 2 ==> DocumentVerdict(t.audits[1]) && t.audits[0].status == DocumentoRequerido)
  }

  predicate TrailOk(s: State, tx: TxId, t: Trail) {
    && WritesOk(t)
    && RowOk(s.audit, tx, t.tenant, t.audits)
    && RowOk(s.records, tx, t.tenant, t.records)
    && (forall i | 0 <= i < |t.sent| :: t.sent[i].tx == tx && PayloadOk(t, t.sent[i]))
    && |t.issued| <= 1
    && |HoldersOf(s, Job(tx, FacePhase))| <= 1
    && |HoldersOf(s, Job(tx, DocumentPhase))| <= 1
    && (HoldersOf(s, Job(tx, FacePhase)) == [] ==> t.issued == [] && t.audits == [])
    && (HoldersOf(s, Job(tx, DocumentPhase)) == [] ==> |t.audits| <= 1)
    && (t.records == [] ==> t.sent == [])
    && (if t.documentRequest.Some? then |t.records| >= 1 && t.records[0].status == DocumentoRequerido
        else DocumentRef(tx) !in s.puts && SelfieRef(tx) !in s.puts && Job(tx, DocumentPhase) !in s.jobs)
  }

  // ----- attempts -----

  predicate IsHolder(s: State, a: AttemptId, job: Job) {
    |HoldersOf(s, job)| == 1 && HoldersOf(s, job)[0].attempt == a
  }

  predicate FaceAttemptOk(s: State, t: Trail, pc: Pc) {
    match pc
    case Scoping => t.issued == [] && t.audits == []
    case Analyzing(_) => t.issued == [] && t.audits == []
    case Issuing(v) => t.issued == [] && t.audits == [] && FaceVerdict(v) && v.status == DocumentoRequerido
    case Auditing(v, token) =>
      && t.audits == [] && FaceVerdict(v) && (token.Some? <==> v.status == DocumentoRequerido)
      && (token.Some? ==> token.value in t.issued)
    case Recording(v, token) =>
      && t.audits == [v] && t.records == [] && (token.Some? <==> v.status == DocumentoRequerido)
      && (token.Some? ==> token.value in t.issued)
    case Dispatching(v, token, _) =>
      && |t.records| >= 1 && t.records[0] == v && (token.Some? <==> v.status == DocumentoRequerido)
      && (token.Some? ==> token.value in t.issued)
    case GettingSelfie(_) => false
    case Verifying => false
    case Deciding(_, _) => false
    case DeletingSelfie => false
    case _ => true
  }

  predicate DocumentAttemptOk(s: State, t: Trail, pc: Pc) {
    match pc
    case Verifying => |t.audits| == 1 && |t.records| == 1
    case Deciding(_, _) => |t.audits| == 1 && |t.records| == 1
    case Auditing(v, token) => |t.audits| == 1 && |t.records| == 1 && DocumentVerdict(v) && token.None?
    case Recording(v, token) => |t.audits| == 2 && t.audits[1] == v && |t.records| == 1 && token.None?
    case Dispatching(v, token, _) => |t.records| == 2 && t.records[1] == v && token.None?
    case Scoping => false
    case Analyzing(_) => false
    case Issuing(_) => false
    case _ => true
  }

  /** What the finally block has deleted by now. */
  predicate DeletedOk(s: State, a: Attempt) {
    && (a.pc.DeletingSelfie? || a.pc.Discarding? || a.pc.Done? ==> MainRef(a.job) !in s.store)
    && (a.pc.Discarding? || a.pc.Done? ==> LastRef(a.job) !in s.store)
  }

  predicate AttemptOk(cfg: Settings, s: State, a: AttemptId, x: Attempt) {
    && x.job in s.jobs && x.job.tx in s.trails
    && DeletedOk(s, x)
    && (x.pc.Acquiring? && LastRef(x.job) in s.puts ==>
          s.puts[LastRef(x.job)] <= x.pc.gotAt < s.puts[LastRef(x.job)] + cfg.frameTtlSeconds * 1000)
    && (Holding(x.pc) ==> IsHolder(s, a, x.job))
    && if x.job.phase.FacePhase? then FaceAttemptOk(s, s.trails[x.job.tx], x.pc)
       else DocumentAttemptOk(s, s.trails[x.job.tx], x.pc)
  }

  // ----- tables -----

  predicate RefOk(cfg: Settings, s: State, ref: Ref) {
    && (ref in s.store ==> ref in s.puts && s.store[ref].expiresAtMs == s.puts[ref] + cfg.frameTtlSeconds * 1000)
    && (ref in s.puts ==> s.puts[ref] <= s.now && ref.tx in s.trails)
  }

  /** The once-key of a job outlives its only acquire by the whole time to live. */
  predicate HolderOk(cfg: Settings, s: State, job: Job) {
    var h := HoldersOf(s, job);
    h != [] ==>
      && job in s.jobs && job in s.once && s.once[job].expiresAt == Some(h[|h| - 1].at + cfg.onceTtlMs)
      && LastRef(job) in s.puts && s.puts[LastRef(job)] <= h[|h| - 1].at <= s.now
      && h[|h| - 1].attempt in s.attempts && s.attempts[h[|h| - 1].attempt].job == job
  }

  predicate JobOk(cfg: Settings, s: State, job: Job) {
    && (job in s.jobs ==>
          && job.tx in s.trails && s.jobs[job] == s.trails[job.tx].tenant
          && MainRef(job) in s.puts && LastRef(job) in s.puts
          && (job.phase.DocumentPhase? ==> s.trails[job.tx].documentRequest.Some?))
    && (job in s.discards ==> job in s.jobs && MainRef(job) !in s.store && LastRef(job) !in s.store)
    && HolderOk(cfg, s, job)
  }

  predicate TxOk(cfg: Settings, s: State, tx: TxId) {
    && RefOk(cfg, s, FrameRef(tx)) && RefOk(cfg, s, DocumentRef(tx)) && RefOk(cfg, s, SelfieRef(tx))
    && JobOk(cfg, s, Job(tx, FacePhase)) && JobOk(cfg, s, Job(tx, DocumentPhase))
    && if tx in s.trails then TrailOk(s, tx, s.trails[tx]) else tx !in s.audit && tx !in s.records
  }

  predicate DocumentSessionOk(s: State, token: Token, d: DocumentSession) {
    && d.tx in s.trails && d.tenant == s.trails[d.tx].tenant && token in s.trails[d.tx].issued
    && s.trails[d.tx].documentRequest.None?
  }

  ghost predicate Inv(cfg: Settings, s: State) {
    && (forall tx: TxId :: TxOk(cfg, s, tx))
    && (forall r | r in s.requests :: RequestOk(s, r, s.requests[r]))
    && (forall a | a in s.attempts :: AttemptOk(cfg, s, a, s.attempts[a]))
    && (forall token | token in s.documentSessions :: DocumentSessionOk(s, token, s.documentSessions[token]))
    && s.documentSessions.Keys <= s.tokens
  }

  // ----- what a step on one transaction leaves alone -----

  /** A ref may lose its entry, nothing else. */
  predicate SameRef(s: State, t: State, ref: Ref) {
    && (ref in t.puts <==> ref in s.puts) && (ref in s.puts ==> t.puts[ref] == s.puts[ref])
    && (ref in t.store ==> ref in s.store && t.store[ref] == s.store[ref])
  }

  predicate SameJob(s: State, t: State, job: Job) {
    && (job in t.jobs <==> job in s.jobs) && (job in s.jobs ==> t.jobs[job] == s.jobs[job])
    && (job in t.once <==> job in s.once) && (job in s.once ==> t.once[job] == s.once[job])
    && (job in t.discards <==> job in s.discards) && HoldersOf(t, job) == HoldersOf(s, job)
  }

  predicate SameRow(s: map<TxId, Row>, t: map<TxId, Row>, tx: TxId) {
    (tx in t <==> tx in s) && (tx in s ==> t[tx] == s[tx])
  }

  predicate SameHistory(s: State, t: State, tx: TxId) {
    && SameRow(s.audit, t.audit, tx) && SameRow(s.records, t.records, tx)
    && (tx in t.trails <==> tx in s.trails) && (tx in s.trails ==> t.trails[tx] == s.trails[tx])
  }

  predicate SameTx(s: State, t: State, tx: TxId) {
    && SameRef(s, t, FrameRef(tx)) && SameRef(s, t, DocumentRef(tx)) && SameRef(s, t, SelfieRef(tx))
    && SameJob(s, t, Job(tx, FacePhase)) && SameJob(s, t, Job(tx, DocumentPhase))
    && SameHistory(s, t, tx)
  }

  lemma TouchesOne(s: State, t: State, tx: TxId, x: TxId)
    requires Touches(s, t, tx) && x != tx
    ensures SameTx(s, t, x)
  {
  }

  /** Time moves on, attempts stay with their jobs. */
  ghost predicate Onward(s: State, t: State) {
    && s.now <= t.now
    && forall a | a in s.attempts :: a in t.attempts && t.attempts[a].job == s.attempts[a].job
  }

  lemma SameRefKeeps(cfg: Settings, s: State, t: State, ref: Ref)
    requires Onward(s, t) && SameRef(s, t, ref) && (ref.tx in s.trails ==> ref.tx in t.trails) && RefOk(cfg, s, ref)
    ensures RefOk(cfg, t, ref)
  {
  }

  lemma SameJobKeeps(cfg: Settings, s: State, t: State, job: Job)
    requires Onward(s, t) && SameTx(s, t, job.tx) && JobOk(cfg, s, job)
    ensures JobOk(cfg, t, job)
  {
    match job.phase
    case FacePhase => assert job == Job(job.tx, FacePhase);
    case DocumentPhase => assert job == Job(job.tx, DocumentPhase);
  }

  lemma SameTrailKeeps(s: State, t: State, tx: TxId)
    requires SameTx(s, t, tx) && tx in s.trails && TrailOk(s, tx, s.trails[tx])
    ensures TrailOk(t, tx, s.trails[tx])
  {
  }

  lemma SameTxKeeps(cfg: Settings, s: State, t: State, tx: TxId)
    requires Onward(s, t) && SameTx(s, t, tx) && TxOk(cfg, s, tx)
    ensures TxOk(cfg, t, tx)
  {
    hide RefOk, JobOk, TrailOk, Onward, SameRef, SameJob;
    SameRefKeeps(cfg, s, t, FrameRef(tx));
    SameRefKeeps(cfg, s, t, DocumentRef(tx));
    SameRefKeeps(cfg, s, t, SelfieRef(tx));
    SameJobKeeps(cfg, s, t, Job(tx, FacePhase));
    SameJobKeeps(cfg, s, t, Job(tx, DocumentPhase));
    if tx in s.trails { SameTrailKeeps(s, t, tx); }
  }

  lemma SameRequestKeeps(s: State, t: State, r: RequestId, q: Request)
    requires RequestOk(s, r, q) && (q.TookSession? || q.Closed? || SameTx(s, t, q.tx))
    ensures RequestOk(t, r, q)
  {
  }

  lemma SameAttemptKeeps(cfg: Settings, s: State, t: State, a: AttemptId, x: Attempt)
    requires AttemptOk(cfg, s, a, x) && SameTx(s, t, x.job.tx)
    ensures AttemptOk(cfg, t, a, x)
  {
  }

  lemma SameSessionKeeps(s: State, t: State, k: Token, d: DocumentSession)
    requires DocumentSessionOk(s, k, d) && SameTx(s, t, d.tx)
    ensures DocumentSessionOk(t, k, d)
  {
  }

  /** The parts of the invariant that speak about one transaction. */
  ghost predicate InvAt(cfg: Settings, s: State, tx: TxId) {
    && TxOk(cfg, s, tx)
    && (forall r | r in s.requests && !s.requests[r].TookSession? && !s.requests[r].Closed? && s.requests[r].tx == tx
          :: RequestOk(s, r, s.requests[r]))
    && (forall a | a in s.attempts && s.attempts[a].job.tx == tx :: AttemptOk(cfg, s, a, s.attempts[a]))
    && (forall token | token in s.documentSessions && s.documentSessions[token].tx == tx
          :: DocumentSessionOk(s, token, s.documentSessions[token]))
  }

  predicate RequestAbout(q: Request, tx: TxId) {
    !q.TookSession? && !q.Closed? && q.tx == tx
  }

  /** The step touches transaction tx only. */
  ghost predicate Touches(s: State, t: State, tx: TxId) {
    && Onward(s, t)
    && (forall ref: Ref | ref.tx != tx :: SameRef(s, t, ref))
    && (forall job: Job | job.tx != tx :: SameJob(s, t, job))
    && (forall x: TxId | x != tx :: SameHistory(s, t, x))
    && (forall r | r in t.requests && !t.requests[r].TookSession? && !t.requests[r].Closed?
          && !RequestAbout(t.requests[r], tx)
          :: r in s.requests && t.requests[r] == s.requests[r])
    && (forall a | a in t.attempts && t.attempts[a].job.tx != tx :: a in s.attempts && t.attempts[a] == s.attempts[a])
    && (forall k | k in t.documentSessions && t.documentSessions[k].tx != tx
          :: k in s.documentSessions && t.documentSessions[k] == s.documentSessions[k])
  }

  /** So it is enough to look at that transaction. */
  lemma Localize(cfg: Settings, s: State, t: State, tx: TxId)
    requires Inv(cfg, s) && Touches(s, t, tx) && InvAt(cfg, t, tx) && t.documentSessions.Keys <= t.tokens
    ensures Inv(cfg, t)
  {
    hide TxOk, AttemptOk, SameTx, SameRef, SameJob, SameHistory, DocumentSessionOk;
    forall x: TxId ensures TxOk(cfg, t, x) {
      if x != tx { TouchesOne(s, t, tx, x); SameTxKeeps(cfg, s, t, x); }
    }
    forall r | r in t.requests ensures RequestOk(t, r, t.requests[r]) {
      var q := t.requests[r];
      if !q.TookSession? && !q.Closed? && !RequestAbout(q, tx) {
        TouchesOne(s, t, tx, q.tx);
        SameRequestKeeps(s, t, r, q);
      }
    }
    forall a | a in t.attempts ensures AttemptOk(cfg, t, a, t.attempts[a]) {
      if t.attempts[a].job.tx != tx {
        TouchesOne(s, t, tx, t.attempts[a].job.tx);
        SameAttemptKeeps(cfg, s, t, a, t.attempts[a]);
      }
    }
    forall k | k in t.documentSessions ensures DocumentSessionOk(t, k, t.documentSessions[k]) {
      if t.documentSessions[k].tx != tx {
        TouchesOne(s, t, tx, t.documentSessions[k].tx);
        SameSessionKeeps(s, t, k, t.documentSessions[k]);
      }
    }
  }

  // ----- job processors -----

  lemma NoTxMoves(s: State, t: State)
    requires t.puts == s.puts && t.jobs == s.jobs && t.once == s.once
    requires t.discards == s.discards && t.holders == s.holders
    requires t.audit == s.audit && t.records == s.records && t.trails == s.trails
    requires forall r | r in t.store :: r in s.store && t.store[r] == s.store[r]
    ensures forall x: TxId :: SameTx(s, t, x)
  {
  }

  /** A step that moves one attempt and at most drops store entries. */
  lemma KeepMove(cfg: Settings, s: State, t: State, a: AttemptId)
    requires Inv(cfg, s) && a in t.attempts
    requires t == s.(store := t.store, attempts := s.attempts[a := t.attempts[a]])
    requires forall r | r in t.store :: r in s.store && t.store[r] == s.store[r]
    requires a in s.attempts ==> t.attempts[a].job == s.attempts[a].job
    requires AttemptOk(cfg, t, a, t.attempts[a])
    ensures Inv(cfg, t)
  {
    NoTxMoves(s, t);
    hide TxOk, AttemptOk, RequestOk, DocumentSessionOk, SameTx;
    forall x: TxId ensures TxOk(cfg, t, x) { SameTxKeeps(cfg, s, t, x); }
    forall r | r in t.requests ensures RequestOk(t, r, t.requests[r]) {
      SameRequestKeeps(s, t, r, t.requests[r]);
    }
    forall b | b in t.attempts ensures AttemptOk(cfg, t, b, t.attempts[b]) {
      if b != a { SameAttemptKeeps(cfg, s, t, b, t.attempts[b]); }
    }
    forall k | k in t.documentSessions ensures DocumentSessionOk(t, k, t.documentSessions[k]) {
      SameSessionKeeps(s, t, k, t.documentSessions[k]);
    }
  }

  lemma JobHere(cfg: Settings, s: State, job: Job)
    requires Inv(cfg, s)
    ensures JobOk(cfg, s, job)
  {
    assert TxOk(cfg, s, job.tx);
    match job.phase
    case FacePhase => assert job == Job(job.tx, FacePhase);
    case DocumentPhase => assert job == Job(job.tx, DocumentPhase);
  }

  /** What the invariant says about an attempt and its transaction. */
  lemma Here(cfg: Settings, s: State, a: AttemptId)
    requires Inv(cfg, s) && a in s.attempts
    ensures AttemptOk(cfg, s, a, s.attempts[a])
    ensures JobOk(cfg, s, s.attempts[a].job) && RefOk(cfg, s, MainRef(s.attempts[a].job))
              && RefOk(cfg, s, LastRef(s.attempts[a].job))
    ensures s.attempts[a].job.tx in s.trails && TrailOk(s, s.attempts[a].job.tx, s.trails[s.attempts[a].job.tx])
  {
    JobHere(cfg, s, s.attempts[a].job);
    assert TxOk(cfg, s, s.attempts[a].job.tx);
  }

  // ----- steps that touch no transaction -----

  /** Steps that touch no transaction: the clock, settings, quota, session tokens, and requests
      that merely move on. */
  lemma KeepQuiet(cfg: Settings, s: State, t: State)
    requires Inv(cfg, s)
    requires t == s.(now := t.now, quota := t.quota, requiredAge := t.requiredAge, sessions := t.sessions,
                     tokens := t.tokens, payments := t.payments, consents := t.consents, consumed := t.consumed,
                     requests := t.requests)
    requires s.now <= t.now && s.tokens <= t.tokens
    requires forall r | r in t.requests :: (r in s.requests && t.requests[r] == s.requests[r])
               || RequestOk(t, r, t.requests[r])
    ensures Inv(cfg, t)
  {
    NoTxMoves(s, t);
    hide TxOk, AttemptOk, RequestOk, DocumentSessionOk, SameTx;
    forall x: TxId ensures TxOk(cfg, t, x) { SameTxKeeps(cfg, s, t, x); }
    forall r | r in t.requests ensures RequestOk(t, r, t.requests[r]) {
      if r in s.requests && t.requests[r] == s.requests[r] { SameRequestKeeps(s, t, r, t.requests[r]); }
    }
    forall b | b in t.attempts ensures AttemptOk(cfg, t, b, t.attempts[b]) {
      SameAttemptKeeps(cfg, s, t, b, t.attempts[b]);
    }
    forall k | k in t.documentSessions ensures DocumentSessionOk(t, k, t.documentSessions[k]) {
      SameSessionKeeps(s, t, k, t.documentSessions[k]);
    }
  }
}
