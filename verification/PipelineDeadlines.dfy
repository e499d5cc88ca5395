/** Sessions and document sessions are good for their time to live only: whatever a request submits was
    admitted within that time of the instant at which its session was opened, or its document token
    issued, by events of the run. In every legal run. */
module PipelineDeadlines {
  import opened Pipeline
  import opened PipelineTheorems
  import opened PipelineAnyRun

  // ----- where sessions come from -----

  /** Event i opens that session. */
  predicate OpensAt(cfg: Settings, s0: State, run: seq<Event>, i: int, token: Token, x: Session) {
    && 0 <= i < |run| && Legal(cfg, s0, run[..i]) && run[i].OpenSession? && run[i].token == token
    && var s := Final(cfg, s0, run[..i]);
    && run[i].call in s.quota.calls && x == Session(s.quota.calls[run[i].call].key.tenant, s.now)
  }

  ghost predicate WasOpened(cfg: Settings, s0: State, run: seq<Event>, token: Token, x: Session) {
    exists i :: OpensAt(cfg, s0, run, i, token, x)
  }

  /** Event i issues that document session. */
  predicate IssuesAt(cfg: Settings, s0: State, run: seq<Event>, i: int, token: Token, x: DocumentSession) {
    && 0 <= i < |run| && Legal(cfg, s0, run[..i]) && run[i].Work? && run[i].w == IssueToken(token)
    && var s := Final(cfg, s0, run[..i]);
    && At(s, run[i].a)
    && x == DocumentSession(s.jobs[s.attempts[run[i].a].job], s.attempts[run[i].a].job.tx, s.now)
  }

  ghost predicate WasIssued(cfg: Settings, s0: State, run: seq<Event>, token: Token, x: DocumentSession) {
    exists i :: IssuesAt(cfg, s0, run, i, token, x)
  }

  /** The request took the document session that some token was issued for. */
  ghost predicate TookIssued(cfg: Settings, s0: State, run: seq<Event>, r: RequestId, x: DocumentSession) {
    exists token :: Http(r, TakeDocumentSession(token)) in run && WasIssued(cfg, s0, run, token, x)
  }

  ghost predicate RequestTold(cfg: Settings, s0: State, run: seq<Event>, r: RequestId, q: Request) {
    match q
    case TookSession(token, tenant, createdAt) =>
      Http(r, TakeSession(token)) in run && WasOpened(cfg, s0, run, token, Session(tenant, createdAt))
    case TookDocumentSession(tx, tenant, createdAt) =>
      TookIssued(cfg, s0, run, r, DocumentSession(tenant, tx, createdAt))
    case _ => true
  }

  ghost predicate Told(cfg: Settings, s0: State, run: seq<Event>, s: State) {
    && (forall token | token in s.sessions :: WasOpened(cfg, s0, run, token, s.sessions[token]))
    && (forall token | token in s.documentSessions :: WasIssued(cfg, s0, run, token, s.documentSessions[token]))
    && (forall r | r in s.requests :: RequestTold(cfg, s0, run, r, s.requests[r]))
  }

  lemma LaterOpened(cfg: Settings, s0: State, run: seq<Event>, token: Token, x: Session)
    requires run != [] && WasOpened(cfg, s0, Front(run), token, x)
    ensures WasOpened(cfg, s0, run, token, x)
  {
    hide Legal, Final;
    var i :| OpensAt(cfg, s0, Front(run), i, token, x);
    assert Front(run)[..i] == run[..i];
    assert OpensAt(cfg, s0, run, i, token, x);
  }

  lemma LaterIssued(cfg: Settings, s0: State, run: seq<Event>, token: Token, x: DocumentSession)
    requires run != [] && WasIssued(cfg, s0, Front(run), token, x)
    ensures WasIssued(cfg, s0, run, token, x)
  {
    hide Legal, Final;
    var i :| IssuesAt(cfg, s0, Front(run), i, token, x);
    assert Front(run)[..i] == run[..i];
    assert IssuesAt(cfg, s0, run, i, token, x);
  }

  lemma LaterTold(cfg: Settings, s0: State, run: seq<Event>, r: RequestId, q: Request)
    requires run != [] && RequestTold(cfg, s0, Front(run), r, q)
    ensures RequestTold(cfg, s0, run, r, q)
  {
    hide WasOpened, WasIssued;
    match q
    case TookSession(token, tenant, createdAt) => LaterOpened(cfg, s0, run, token, Session(tenant, createdAt));
    case TookDocumentSession(tx, tenant, createdAt) =>
      var x := DocumentSession(tenant, tx, createdAt);
      var token :| Http(r, TakeDocumentSession(token)) in Front(run) && WasIssued(cfg, s0, Front(run), token, x);
      LaterIssued(cfg, s0, run, token, x);
      assert Http(r, TakeDocumentSession(token)) in run;
    case _ =>
  }

  /** What one step does to the three tables. */
  ghost predicate Moves(s: State, t: State, e: Event) {
    && (forall token | token in t.sessions ::
          (token in s.sessions && t.sessions[token] == s.sessions[token])
          || (e.OpenSession? && e.token == token && e.call in s.quota.calls
              && t.sessions[token] == Session(s.quota.calls[e.call].key.tenant, s.now)))
    && (forall token | token in t.documentSessions ::
          (token in s.documentSessions && t.documentSessions[token] == s.documentSessions[token])
          || (e.Work? && e.w == IssueToken(token) && At(s, e.a)
              && t.documentSessions[token]
                 == DocumentSession(s.jobs[s.attempts[e.a].job], s.attempts[e.a].job.tx, s.now)))
    && (forall r | r in t.requests ::
          || (r in s.requests && t.requests[r] == s.requests[r])
          || !(t.requests[r].TookSession? || t.requests[r].TookDocumentSession?)
          || (e.Http? && e.r == r && e.h.TakeSession? && e.h.token in s.sessions
              && var x := s.sessions[e.h.token]; t.requests[r] == TookSession(e.h.token, x.tenant, x.createdAt))
          || (e.Http? && e.r == r && e.h.TakeDocumentSession? && e.h.token in s.documentSessions
              && var x := s.documentSessions[e.h.token];
                 t.requests[r] == TookDocumentSession(x.tx, x.tenant, x.createdAt)))
  }

  lemma StepMoves(cfg: Settings, s: State, e: Event)
    requires Enabled(cfg, s, e)
    ensures Moves(s, Apply(cfg, s, e), e)
  {
    match e
    case Work(a, w) => WorkMoves(cfg, s, a, w);
    case Http(r, h) => HttpMoves(cfg, s, r, h);
    case _ =>
  }

  lemma HttpMoves(cfg: Settings, s: State, r: RequestId, h: HttpEvent)
    requires HttpEnabled(cfg, s, r, h)
    ensures Moves(s, HttpApply(cfg, s, r, h), Http(r, h))
  {
  }

  lemma WorkMoves(cfg: Settings, s: State, a: AttemptId, w: WorkEvent)
    requires WorkEnabled(cfg, s, a, w)
    ensures Moves(s, WorkApply(cfg, s, a, w), Work(a, w))
  {
    WorkLeavesDesk(cfg, s, a, w);
    if w.IssueToken? {
      assert WorkApply(cfg, s, a, w) == DoIssue(s, a, w.token);
    } else {
      DocumentSessionsStay(cfg, s, a, w);
      hide WorkApply, WorkEnabled;
    }
  }

  lemma DocumentSessionsStay(cfg: Settings, s: State, a: AttemptId, w: WorkEvent)
    requires WorkEnabled(cfg, s, a, w) && !w.IssueToken?
    ensures WorkApply(cfg, s, a, w).documentSessions == s.documentSessions
  {
    hide AfterTenant, Found, Storable;
  }

  lemma {:induction false} RunTold(cfg: Settings, s0: State, run: seq<Event>)
    requires FromStart(s0) && Legal(cfg, s0, run)
    ensures Told(cfg, s0, run, Final(cfg, s0, run))
    decreases |run|
  {
    if run != [] {
      RunTold(cfg, s0, Front(run));
      StepMoves(cfg, Final(cfg, s0, Front(run)), run[|run| - 1]);
      hide Enabled, Apply, Told, Moves;
      MovesTold(cfg, s0, run, Final(cfg, s0, Front(run)), Final(cfg, s0, run));
    }
  }

  lemma MovesTold(cfg: Settings, s0: State, run: seq<Event>, s: State, t: State)
    requires run != [] && Legal(cfg, s0, run) && s == Final(cfg, s0, Front(run))
    requires Told(cfg, s0, Front(run), s) && Moves(s, t, run[|run| - 1])
    ensures Told(cfg, s0, run, t)
  {
    hide RequestTold, WasOpened, WasIssued, Legal, Final;
    forall token | token in t.sessions ensures WasOpened(cfg, s0, run, token, t.sessions[token]) {
      SessionTold(cfg, s0, run, s, t, token);
    }
    forall token | token in t.documentSessions ensures WasIssued(cfg, s0, run, token, t.documentSessions[token]) {
      DocumentSessionTold(cfg, s0, run, s, t, token);
    }
    forall r | r in t.requests ensures RequestTold(cfg, s0, run, r, t.requests[r]) {
      RequestStaysTold(cfg, s0, run, s, t, r);
    }
  }

  lemma SessionTold(cfg: Settings, s0: State, run: seq<Event>, s: State, t: State, token: Token)
    requires run != [] && Legal(cfg, s0, run) && s == Final(cfg, s0, Front(run))
    requires Told(cfg, s0, Front(run), s) && Moves(s, t, run[|run| - 1]) && token in t.sessions
    ensures WasOpened(cfg, s0, run, token, t.sessions[token])
  {
    hide RequestTold;
    if token in s.sessions && t.sessions[token] == s.sessions[token] {
      hide Final, Legal;
      LaterOpened(cfg, s0, run, token, t.sessions[token]);
    } else {
      assert OpensAt(cfg, s0, run, |run| - 1, token, t.sessions[token]);
    }
  }

  lemma DocumentSessionTold(cfg: Settings, s0: State, run: seq<Event>, s: State, t: State, token: Token)
    requires run != [] && Legal(cfg, s0, run) && s == Final(cfg, s0, Front(run))
    requires Told(cfg, s0, Front(run), s) && Moves(s, t, run[|run| - 1]) && token in t.documentSessions
    ensures WasIssued(cfg, s0, run, token, t.documentSessions[token])
  {
    hide RequestTold;
    if token in s.documentSessions && t.documentSessions[token] == s.documentSessions[token] {
      hide Final, Legal;
      LaterIssued(cfg, s0, run, token, t.documentSessions[token]);
    } else {
      assert IssuesAt(cfg, s0, run, |run| - 1, token, t.documentSessions[token]);
    }
  }

  lemma RequestStaysTold(cfg: Settings, s0: State, run: seq<Event>, s: State, t: State, r: RequestId)
    requires run != [] && Told(cfg, s0, Front(run), s) && Moves(s, t, run[|run| - 1]) && r in t.requests
    ensures RequestTold(cfg, s0, run, r, t.requests[r])
  {
    hide WasOpened, WasIssued, RequestTold, Legal, Final;
    var e := run[|run| - 1];
    if r in s.requests && t.requests[r] == s.requests[r] {
      LaterTold(cfg, s0, run, r, t.requests[r]);
    } else if t.requests[r].TookSession? {
      LaterOpened(cfg, s0, run, e.h.token, s.sessions[e.h.token]);
      TakenTold(cfg, s0, run, r, t.requests[r]);
    } else if t.requests[r].TookDocumentSession? {
      LaterIssued(cfg, s0, run, e.h.token, s.documentSessions[e.h.token]);
      assert Http(r, TakeDocumentSession(e.h.token)) in run;
      DocumentTakenTold(cfg, s0, run, r, t.requests[r], e.h.token);
    } else {
      OtherTold(cfg, s0, run, r, t.requests[r]);
    }
  }

  lemma TakenTold(cfg: Settings, s0: State, run: seq<Event>, r: RequestId, q: Request)
    requires run != [] && q.TookSession? && run[|run| - 1] == Http(r, TakeSession(q.token))
    requires WasOpened(cfg, s0, run, q.token, Session(q.tenant, q.createdAt))
    ensures RequestTold(cfg, s0, run, r, q)
  {
  }

  lemma DocumentTakenTold(cfg: Settings, s0: State, run: seq<Event>, r: RequestId, q: Request, token: Token)
    requires q.TookDocumentSession? && Http(r, TakeDocumentSession(token)) in run
    requires WasIssued(cfg, s0, run, token, DocumentSession(q.tenant, q.tx, q.createdAt))
    ensures RequestTold(cfg, s0, run, r, q)
  {
    hide WasIssued;
  }

  lemma OtherTold(cfg: Settings, s0: State, run: seq<Event>, r: RequestId, q: Request)
    requires !q.TookSession? && !q.TookDocumentSession?
    ensures RequestTold(cfg, s0, run, r, q)
  {
  }

  // ----- nothing is admitted too late -----

  /** The session token was opened by event i, no longer than the time to live before instant now, for
      that tenant; and request r took it. */
  ghost predicate OpenedInTime(cfg: Settings, s0: State, run: seq<Event>, r: RequestId, token: Token, tenant: TenantId,
                               now: int)
  {
    Http(r, TakeSession(token)) in run
    && exists x :: WasOpened(cfg, s0, run, token, x) && x.tenant == tenant && now - x.createdAt <= cfg.sessionTtlMs
  }

  /** Whenever a request opens a transaction, it has taken the session that the transaction is opened
      with, that session was opened at most the time to live ago, and its tenant is the transaction's. */
  lemma AdmittedInTime(cfg: Settings, s0: State, run: seq<Event>, r: RequestId, tx: TxId)
    requires FromStart(s0) && Legal(cfg, s0, run + [Http(r, Admit(tx))])
    ensures Legal(cfg, s0, run)
    ensures var s, t := Final(cfg, s0, run), Final(cfg, s0, run + [Http(r, Admit(tx))]);
            && tx !in s.trails && tx in t.trails
            && OpenedInTime(cfg, s0, run, r, t.trails[tx].session, t.trails[tx].tenant, s.now)
  {
    var longer := run + [Http(r, Admit(tx))];
    assert Front(longer) == run;
    RunTold(cfg, s0, run);
    var s, q := Final(cfg, s0, run), Final(cfg, s0, run).requests[r];
    assert RequestTold(cfg, s0, run, r, q);
    assert Final(cfg, s0, longer) == DoAdmit(s, r, tx);
    hide Legal, Final, WasOpened, Told;
    var x := Session(q.tenant, q.createdAt);
    assert WasOpened(cfg, s0, run, q.token, x);
  }

  lemma LastAdmits(cfg: Settings, s0: State, run: seq<Event>, r: RequestId)
    requires Legal(cfg, s0, run + [Http(r, AdmitDocument)])
    ensures Legal(cfg, s0, run)
    ensures var s, t := Final(cfg, s0, run), Final(cfg, s0, run + [Http(r, AdmitDocument)]);
            && r in s.requests && s.requests[r].TookDocumentSession?
            && s.now - s.requests[r].createdAt <= cfg.sessionTtlMs
            && t == DoAdmitDocument(s, r)
  {
    assert Front(run + [Http(r, AdmitDocument)]) == run;
  }

  lemma TookTold(cfg: Settings, s0: State, run: seq<Event>, s: State, r: RequestId)
    requires Told(cfg, s0, run, s) && r in s.requests && s.requests[r].TookDocumentSession?
    ensures var q := s.requests[r]; TookIssued(cfg, s0, run, r, DocumentSession(q.tenant, q.tx, q.createdAt))
  {
    hide TookIssued, WasOpened, WasIssued;
    assert RequestTold(cfg, s0, run, r, s.requests[r]);
  }

  /** Whenever document images are admitted, the request has taken a document session that was issued,
      for that transaction and tenant, at most the time to live ago. */
  lemma DocumentsAdmittedInTime(cfg: Settings, s0: State, run: seq<Event>, r: RequestId)
    requires FromStart(s0) && Legal(cfg, s0, run + [Http(r, AdmitDocument)])
    ensures Legal(cfg, s0, run)
    ensures var s, t := Final(cfg, s0, run), Final(cfg, s0, run + [Http(r, AdmitDocument)]);
            && r in t.requests && t.requests[r].DocumentAdmitted?
            && exists x ::
                 && TookIssued(cfg, s0, run, r, x) && x.tx == t.requests[r].tx && x.tenant == t.requests[r].tenant
                 && s.now - x.createdAt <= cfg.sessionTtlMs
  {
    LastAdmits(cfg, s0, run, r);
    RunTold(cfg, s0, run);
    hide Legal, Final, TookIssued, Told;
    TookTold(cfg, s0, run, Final(cfg, s0, run), r);
  }

  lemma LastRejects(cfg: Settings, s0: State, run: seq<Event>, r: RequestId)
    requires Legal(cfg, s0, run + [Http(r, Reject)])
    ensures Legal(cfg, s0, run)
    ensures var s := Final(cfg, s0, run);
            && r in s.requests && (s.requests[r].TookSession? || s.requests[r].TookDocumentSession?)
            && s.now - s.requests[r].createdAt > cfg.sessionTtlMs
  {
    assert Front(run + [Http(r, Reject)]) == run;
  }

  /** Whoever is turned away as expired took a session that was opened, or a document session that was
      issued, more than the time to live ago. */
  lemma RejectedLate(cfg: Settings, s0: State, run: seq<Event>, r: RequestId)
    requires FromStart(s0) && Legal(cfg, s0, run + [Http(r, Reject)])
    ensures Legal(cfg, s0, run) && r in Final(cfg, s0, run).requests
    ensures var s, q := Final(cfg, s0, run), Final(cfg, s0, run).requests[r];
            && RequestTold(cfg, s0, run, r, q) && (q.TookSession? || q.TookDocumentSession?)
            && s.now - q.createdAt > cfg.sessionTtlMs
  {
    LastRejects(cfg, s0, run, r);
    RunTold(cfg, s0, run);
    hide Legal, Final, RequestTold, WasOpened, WasIssued;
  }
}
