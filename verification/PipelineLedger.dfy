/** Conservation: every decided transaction goes back to its own quota unit. */
module PipelineLedger {
  import opened Wrappers
  import opened Sets
  import opened Pipeline
  import opened PipelineTheorems
  import opened PipelineAnyRun
  import Quota
  import Text

  /** The tenant whose quota paid for a session token. */
  function Payer(s: State, token: Token): TenantId
    requires token in s.payments && s.payments[token] in s.quota.calls
  {
    s.quota.calls[s.payments[token]].key.tenant
  }

  /** A consent row was written with the session, for a user and a policy of that tenant. */
  predicate Consented(s: State, token: Token, tenant: TenantId) {
    && token in s.consents && s.consents[token].tenant == tenant
    && s.consents[token].userHash != "" && !Text.AllBlank(s.consents[token].policyVersion)
  }

  predicate PaymentOk(s: State, token: Token) {
    && token in s.payments && token in s.tokens && s.payments[token] in s.quota.calls
    && s.quota.calls[s.payments[token]].pc.Won? && Consented(s, token, Payer(s, token))
  }

  /** Token was taken by a request and paid for by that tenant. */
  predicate Taken(s: State, token: Token, tenant: TenantId) {
    token in s.consumed && token in s.payments && PaymentOk(s, token) && Payer(s, token) == tenant
  }

  /** Every session token is paid by its own won quota call. */
  ghost predicate Paid(s: State) {
    && (forall k | k in s.payments :: PaymentOk(s, k))
    && (forall j, k | j in s.payments && k in s.payments && s.payments[j] == s.payments[k] :: j == k)
    && s.consumed <= s.payments.Keys
  }

  predicate SessionOk(s: State, token: Token, tenant: TenantId) {
    token in s.payments && token !in s.consumed && PaymentOk(s, token) && Payer(s, token) == tenant
  }

  /** A session token is open or taken but not both, and whoever holds it is the tenant that paid. */
  ghost predicate Honest(s: State) {
    && (forall k | k in s.sessions :: SessionOk(s, k, s.sessions[k].tenant))
    && (forall r | r in s.requests && s.requests[r].TookSession? :: Taken(s, s.requests[r].token, s.requests[r].tenant))
    && (forall tx | tx in s.trails :: Taken(s, s.trails[tx].session, s.trails[tx].tenant))
  }

  /** A session token is used by one request or by one transaction. */
  ghost predicate UsedOnce(s: State) {
    && (forall q, r | q in s.requests && r in s.requests && s.requests[q].TookSession? && s.requests[r].TookSession?
          && s.requests[q].token == s.requests[r].token :: q == r)
    && (forall x, y | x in s.trails && y in s.trails && s.trails[x].session == s.trails[y].session :: x == y)
    && (forall r, x | r in s.requests && x in s.trails
          && s.requests[r].TookSession? :: s.requests[r].token != s.trails[x].session)
  }

  ghost predicate Ledger(s: State) {
    Paid(s) && Honest(s) && UsedOnce(s)
  }

  lemma OpenKeepsLedger(cfg: Settings, s: State, e: Event)
    requires Ledger(s) && Enabled(cfg, s, e) && e.OpenSession?
    ensures Ledger(Apply(cfg, s, e))
  {
    var t, call, token := Apply(cfg, s, e), e.call, e.token;
    NewTokenIsNew(s, token);
    Opens(cfg, s, e);
    hide Apply, Enabled, PaymentOk, Consented;
    OpenKeepsPaid(s, t, call, token);
    hide Paid;
    OpenKeepsHonest(s, t, call, token);
  }

  lemma Opens(cfg: Settings, s: State, e: Event)
    requires Enabled(cfg, s, e) && e.OpenSession?
    ensures var t, tenant := Apply(cfg, s, e), s.quota.calls[e.call].key.tenant;
            && t.requests == s.requests && t.trails == s.trails && t.consumed == s.consumed && t.quota == s.quota
            && t.payments == s.payments[e.token := e.call] && t.tokens == s.tokens + {e.token}
            && t.sessions == s.sessions[e.token := Session(tenant, t.now)]
            && Consented(t, e.token, tenant) && t.consents == s.consents[e.token := t.consents[e.token]]
  {
  }

  lemma NewTokenIsNew(s: State, token: Token)
    requires Paid(s) && token !in s.tokens
    ensures token !in s.payments && token !in s.consumed
  {
    assert forall k | k in s.payments :: PaymentOk(s, k);
  }

  lemma OpenKeepsPaid(s: State, t: State, call: Quota.CallId, token: Token)
    requires Paid(s) && token !in s.payments && call !in s.payments.Values
    requires call in s.quota.calls && s.quota.calls[call].pc.Won?
    requires t.payments == s.payments[token := call] && t.quota == s.quota && t.consumed == s.consumed
    requires t.tokens == s.tokens + {token} && Consented(t, token, s.quota.calls[call].key.tenant)
    requires t.consents == s.consents[token := t.consents[token]]
    ensures Paid(t)
  {
    forall k | k in t.payments ensures PaymentOk(t, k) { if k != token { assert PaymentOk(s, k); } }
  }

  lemma OpenKeepsHonest(s: State, t: State, call: Quota.CallId, token: Token)
    requires Honest(s) && Paid(t) && token !in s.payments && token !in s.consumed
    requires call in s.quota.calls && t.sessions == s.sessions[token := Session(s.quota.calls[call].key.tenant, t.now)]
    requires t.payments == s.payments[token := call] && t.quota == s.quota && t.consumed == s.consumed
    requires t.requests == s.requests && t.trails == s.trails
    ensures Honest(t)
  {
  }

  /** A step that leaves session tokens, their payers and their users alone. */
  ghost predicate SameAccounts(s: State, t: State) {
    && t.payments == s.payments && t.consents == s.consents && t.sessions == s.sessions && t.consumed == s.consumed
    && s.tokens <= t.tokens
    && (forall c | c in s.quota.calls && s.quota.calls[c].pc.Won? :: c in t.quota.calls
          && t.quota.calls[c] == s.quota.calls[c])
    && (forall r | r in t.requests && t.requests[r].TookSession? :: r in s.requests && s.requests[r] == t.requests[r])
    && (forall x | x in t.trails :: x in s.trails && t.trails[x].session == s.trails[x].session
          && t.trails[x].tenant == s.trails[x].tenant)
  }

  lemma FrameKeepsLedger(s: State, t: State)
    requires Ledger(s) && SameAccounts(s, t)
    ensures Ledger(t)
  {
    PaymentsStay(s, t);
    hide PaymentOk, Payer;
    FramePaid(s, t);
    FrameHonest(s, t);
    FrameUsedOnce(s, t);
    hide Paid, Honest, UsedOnce, SameAccounts;
  }

  lemma FramePaid(s: State, t: State)
    requires Paid(s) && t.payments == s.payments && t.consumed == s.consumed
    requires forall k | k in s.payments && PaymentOk(s, k) :: PaymentOk(t, k)
    ensures Paid(t)
  {
    hide PaymentOk;
  }

  lemma FrameHonest(s: State, t: State)
    requires Honest(s) && SameAccounts(s, t)
    requires forall k | k in s.payments && PaymentOk(s, k) :: PaymentOk(t, k) && Payer(t, k) == Payer(s, k)
    ensures Honest(t)
  {
    hide PaymentOk, Payer;
    forall k | k in t.sessions ensures SessionOk(t, k, t.sessions[k].tenant) {
      assert SessionOk(s, k, s.sessions[k].tenant);
    }
    forall r | r in t.requests && t.requests[r].TookSession?
      ensures Taken(t, t.requests[r].token, t.requests[r].tenant) {
      assert Taken(s, s.requests[r].token, s.requests[r].tenant);
    }
    forall tx | tx in t.trails ensures Taken(t, t.trails[tx].session, t.trails[tx].tenant) {
      assert Taken(s, s.trails[tx].session, s.trails[tx].tenant);
    }
  }

  lemma FrameUsedOnce(s: State, t: State)
    requires UsedOnce(s) && SameAccounts(s, t)
    ensures UsedOnce(t)
  {
  }

  lemma PaymentsStay(s: State, t: State)
    requires SameAccounts(s, t)
    ensures forall k | k in s.payments && PaymentOk(s, k) :: PaymentOk(t, k) && Payer(t, k) == Payer(s, k)
  {
  }

  lemma WonStays(s: Quota.State, q: Quota.Event, now: int)
    requires Quota.Enabled(s, q)
    ensures var t := Quota.Apply(s, q, now);
            forall c | c in s.calls && s.calls[c].pc.Won? :: c in t.calls && t.calls[c] == s.calls[c]
  {
  }

  lemma HttpAccounts(cfg: Settings, s: State, r: RequestId, h: HttpEvent)
    requires HttpEnabled(cfg, s, r, h) && !h.TakeSession? && !h.Admit?
    ensures SameAccounts(s, HttpApply(cfg, s, r, h))
  {
  }

  lemma WorkAccounts(cfg: Settings, s: State, a: AttemptId, w: WorkEvent)
    requires WorkEnabled(cfg, s, a, w)
    ensures SameAccounts(s, WorkApply(cfg, s, a, w))
  {
    WorkLeavesDesk(cfg, s, a, w);
    WorkProgress(cfg, s, a, w);
    hide WorkApply, WorkEnabled;
  }

  lemma TakeKeepsLedger(s: State, r: RequestId, token: Token)
    requires Ledger(s) && r !in s.requests && token in s.sessions
    ensures Ledger(DoTakeSession(s, r, token))
  {
    var t, q := DoTakeSession(s, r, token), TookSession(token, s.sessions[token].tenant, s.sessions[token].createdAt);
    assert SessionOk(s, token, s.sessions[token].tenant);
    assert t.requests == s.requests[r := q] && t.trails == s.trails;
    assert t.sessions == s.sessions - {token} && t.consumed == s.consumed + {token};
    SamePayments(s, t);
    hide DoTakeSession, PaymentOk, Payer;
    TakeUsesOnce(s, t, r, q);
    assert Paid(t);
    hide UsedOnce, Paid;
    forall x | x in t.requests && t.requests[x].TookSession?
      ensures Taken(t, t.requests[x].token, t.requests[x].tenant) {
      if x != r { assert Taken(s, s.requests[x].token, s.requests[x].tenant); }
    }
    forall k | k in t.sessions
      ensures SessionOk(t, k, t.sessions[k].tenant) { assert SessionOk(s, k, s.sessions[k].tenant); }
    forall x | x in t.trails ensures Taken(t, t.trails[x].session, t.trails[x].tenant) {
      assert Taken(s, s.trails[x].session, s.trails[x].tenant);
    }
  }

  lemma TakeUsesOnce(s: State, t: State, r: RequestId, q: Request)
    requires Ledger(s) && r !in s.requests && q.TookSession? && q.token in s.sessions
    requires t.requests == s.requests[r := q] && t.trails == s.trails
    ensures UsedOnce(t)
  {
  }

  lemma SamePayments(s: State, t: State)
    requires t.payments == s.payments && t.quota == s.quota && t.tokens == s.tokens && t.consents == s.consents
    ensures forall k | k in s.payments :: PaymentOk(t, k) == PaymentOk(s, k)
    ensures forall k | k in s.payments && PaymentOk(s, k) :: Payer(t, k) == Payer(s, k)
  {
  }

  lemma AdmitKeepsLedger(s: State, r: RequestId, tx: TxId)
    requires Ledger(s) && r in s.requests && s.requests[r].TookSession? && tx !in s.trails
    ensures Ledger(DoAdmit(s, r, tx))
  {
    var t, q := DoAdmit(s, r, tx), s.requests[r];
    assert Taken(s, q.token, q.tenant);
    assert t.requests == s.requests[r := Admitted(tx, q.tenant)];
    assert t.trails == s.trails[tx := Trail(q.tenant, q.token, r, None, [], [], [], [])];
    SamePayments(s, t);
    hide DoAdmit, PaymentOk, Payer;
    AdmitUsesOnce(s, t, r, tx);
    assert Paid(t);
    assert Honest(t) by { AdmitHonest(s, t, r, tx); }
    hide UsedOnce, Paid, Honest;
  }

  lemma AdmitHonest(s: State, t: State, r: RequestId, tx: TxId)
    requires Honest(s) && r in s.requests && s.requests[r].TookSession? && tx !in s.trails
    requires Taken(s, s.requests[r].token, s.requests[r].tenant)
    requires t.requests == s.requests[r := Admitted(tx, s.requests[r].tenant)] && t.sessions == s.sessions
    requires t.trails == s.trails[tx := Trail(s.requests[r].tenant, s.requests[r].token, r, None, [], [], [], [])]
    requires t.payments == s.payments && t.consumed == s.consumed && t.quota == s.quota && t.tokens == s.tokens
    requires t.consents == s.consents
    ensures Honest(t)
  {
    SamePayments(s, t);
    hide PaymentOk, Payer;
    forall k | k in t.sessions ensures SessionOk(t, k, t.sessions[k].tenant) {
      assert SessionOk(s, k, s.sessions[k].tenant);
    }
    forall x | x in t.requests && t.requests[x].TookSession?
      ensures Taken(t, t.requests[x].token, t.requests[x].tenant) {
      assert Taken(s, s.requests[x].token, s.requests[x].tenant);
    }
    forall x | x in t.trails ensures Taken(t, t.trails[x].session, t.trails[x].tenant) {
      if x != tx { assert Taken(s, s.trails[x].session, s.trails[x].tenant); }
    }
  }

  lemma AdmitUsesOnce(s: State, t: State, r: RequestId, tx: TxId)
    requires UsedOnce(s) && r in s.requests && s.requests[r].TookSession? && tx !in s.trails
    requires t.requests == s.requests[r := Admitted(tx, s.requests[r].tenant)]
    requires t.trails.Keys == s.trails.Keys + {tx} && t.trails[tx].session == s.requests[r].token
    requires forall x | x in s.trails :: t.trails[x] == s.trails[x]
    ensures UsedOnce(t)
  {
  }

  lemma HttpKeepsLedger(cfg: Settings, s: State, r: RequestId, h: HttpEvent)
    requires Ledger(s) && HttpEnabled(cfg, s, r, h)
    ensures Ledger(HttpApply(cfg, s, r, h))
  {
    hide Ledger;
    match h
    case TakeSession(token) => TakeKeepsLedger(s, r, token);
    case Admit(tx) => AdmitKeepsLedger(s, r, tx);
    case _ =>
      HttpAccounts(cfg, s, r, h);
      FrameKeepsLedger(s, HttpApply(cfg, s, r, h));
  }

  lemma StepKeepsLedger(cfg: Settings, s: State, e: Event)
    requires Ledger(s) && Enabled(cfg, s, e)
    ensures Ledger(Apply(cfg, s, e))
  {
    hide Ledger, HttpApply, WorkApply, HttpEnabled, WorkEnabled;
    match e
    case OpenSession(_, _, _, _) => OpenKeepsLedger(cfg, s, e);
    case Http(r, h) => HttpKeepsLedger(cfg, s, r, h);
    case Work(a, w) =>
      WorkAccounts(cfg, s, a, w);
      FrameKeepsLedger(s, Apply(cfg, s, e));
    case QuotaStep(q) =>
      WonStays(s.quota, q, s.now);
      FrameKeepsLedger(s, Apply(cfg, s, e));
    case _ => FrameKeepsLedger(s, Apply(cfg, s, e));
  }

  lemma {:induction false} RunKeepsLedger(cfg: Settings, s0: State, run: seq<Event>)
    requires FromStart(s0) && Legal(cfg, s0, run)
    ensures Ledger(Final(cfg, s0, run))
    decreases |run|
  {
    hide Apply, Enabled;
    if run != [] {
      RunKeepsLedger(cfg, s0, Front(run));
      hide Ledger;
      StepKeepsLedger(cfg, Final(cfg, s0, Front(run)), run[|run| - 1]);
    }
  }

  // ----- per tenant -----

  ghost function Decided(s: State, tenant: TenantId): set<TxId> {
    set tx | tx in s.audit && s.audit[tx].tenant == tenant
  }

  ghost function Enqueued(s: State, tenant: TenantId): set<TxId> {
    set tx | tx in s.trails && Job(tx, FacePhase) in s.jobs && s.jobs[Job(tx, FacePhase)] == tenant
  }

  ghost function Consumed(s: State, tenant: TenantId): set<Token> {
    set k | k in s.consumed && k in s.payments && s.payments[k] in s.quota.calls && Payer(s, k) == tenant
  }

  ghost function Opened(s: State, tenant: TenantId): set<Token> {
    set k | k in s.payments && s.payments[k] in s.quota.calls && Payer(s, k) == tenant
  }

  ghost function Won(s: State, tenant: TenantId): set<Quota.CallId> {
    set c | c in s.quota.calls && s.quota.calls[c].pc.Won? && s.quota.calls[c].key.tenant == tenant
  }

  /** Decided transactions <= enqueued transactions <= consumed sessions <= opened sessions
      <= quota units won over all months, for every tenant and in every reachable state. */
  lemma Conservation(cfg: Settings, s0: State, run: seq<Event>, tenant: TenantId)
    requires FromStart(s0) && Legal(cfg, s0, run)
    ensures var s := Final(cfg, s0, run);
            |Decided(s, tenant)| <= |Enqueued(s, tenant)| <= |Consumed(s, tenant)|
              <= |Opened(s, tenant)| <= |Won(s, tenant)|
  {
    RunRooted(cfg, s0, run);
    RunKeepsLedger(cfg, s0, run);
    hide Rooted, Ledger, Final, Legal;
    var s := Final(cfg, s0, run);
    DecidedWereEnqueued(s, tenant);
    EnqueuedTookSessions(s, tenant);
    SubsetSize(Consumed(s, tenant), Opened(s, tenant));
    OpenedWerePaid(s, tenant);
  }

  lemma DecidedWereEnqueued(s: State, tenant: TenantId)
    requires Rooted(s)
    ensures |Decided(s, tenant)| <= |Enqueued(s, tenant)|
  {
    forall tx | tx in Decided(s, tenant) ensures tx in Enqueued(s, tenant) {
      DecidedWasEnqueued(s, tx);
    }
    SubsetSize(Decided(s, tenant), Enqueued(s, tenant));
  }

  lemma DecidedWasEnqueued(s: State, tx: TxId)
    requires Rooted(s) && tx in s.audit
    ensures tx in s.trails && Job(tx, FacePhase) in s.jobs
    ensures s.audit[tx].tenant == s.trails[tx].tenant == s.jobs[Job(tx, FacePhase)]
  {
    assert TxRooted(s, tx);
    assert JobRooted(s, Job(tx, FacePhase));
  }

  lemma EnqueuedTookSessions(s: State, tenant: TenantId)
    requires Rooted(s) && Ledger(s)
    ensures |Enqueued(s, tenant)| <= |Consumed(s, tenant)|
  {
    var f := map tx | tx in s.trails :: s.trails[tx].session;
    forall tx | tx in Enqueued(s, tenant) ensures f[tx] in Consumed(s, tenant) {
      assert JobRooted(s, Job(tx, FacePhase));
      assert Taken(s, s.trails[tx].session, s.trails[tx].tenant);
    }
    hide Rooted;
    InjectionSize(Enqueued(s, tenant), Consumed(s, tenant), f);
  }

  lemma OpenedWerePaid(s: State, tenant: TenantId)
    requires Ledger(s)
    ensures |Opened(s, tenant)| <= |Won(s, tenant)|
  {
    forall k | k in Opened(s, tenant) ensures s.payments[k] in Won(s, tenant) { assert PaymentOk(s, k); }
    InjectionSize(Opened(s, tenant), Won(s, tenant), s.payments);
  }

  /** Behind every audit row is a consent row of the same tenant, written with the session that the
      transaction was opened with. In every reachable state. */
  lemma ConsentBehindVerdict(cfg: Settings, s0: State, run: seq<Event>, tx: TxId)
    requires FromStart(s0) && Legal(cfg, s0, run) && tx in Final(cfg, s0, run).audit
    ensures var s := Final(cfg, s0, run);
            tx in s.trails && Consented(s, s.trails[tx].session, s.audit[tx].tenant)
  {
    RunRooted(cfg, s0, run);
    RunKeepsLedger(cfg, s0, run);
    var s := Final(cfg, s0, run);
    hide Final, Legal;
    DecidedWasEnqueued(s, tx);
    assert Taken(s, s.trails[tx].session, s.trails[tx].tenant);
  }

  /** One token, one transaction, in every reachable state. */
  lemma TokenBuysOneTransaction(cfg: Settings, s0: State, run: seq<Event>, x: TxId, y: TxId)
    requires FromStart(s0) && Legal(cfg, s0, run)
    requires var s := Final(cfg, s0, run);
             x in s.trails && y in s.trails && s.trails[x].session == s.trails[y].session
    ensures x == y
  {
    RunKeepsLedger(cfg, s0, run);
  }
}
