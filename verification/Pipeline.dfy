/** The verification pipeline as a protocol: shared tables, and one event per await of the
    controllers and of the two job processors. Every nondeterministic outcome is a label of the
    event, any number of attempts of a job may be under way, and any of them may throw or die
    between two events. */
module Pipeline {
  import opened Wrappers
  import opened Decision
  import Base64
  import FrameStore
  import Text
  import Redis
  import Quota

  type TenantId = nat
  type Token = nat
  type TxId = nat
  type RequestId = nat
  type AttemptId = nat

  /** What the media store holds: a serialized encrypted image. */
  type Media = Base64.Bytes

  /** Deployment settings: FRAME_TTL_SECONDS, onceTtlMs, SESSION_TTL_SECONDS * 1000, the webhook
      retries, the decision thresholds and DOC_FACEMATCH_MIN. */
  datatype Settings = Settings(frameTtlSeconds: int, onceTtlMs: int, sessionTtlMs: int, retries: int,
                               decision: Config, minFaceMatch: real)

  datatype Phase = FacePhase | DocumentPhase

  /** A queued job, which is also its once-key: once:<tx> or once:doc:<tx>. */
  datatype Job = Job(tx: TxId, phase: Phase)

  /** A key of the media store: <tx>, <tx>:doc or <tx>:self. */
  datatype Ref = FrameRef(tx: TxId) | DocumentRef(tx: TxId) | SelfieRef(tx: TxId)

  /** What a verdict rests on; a document's age is the one at the instant the verifier answered. */
  datatype Basis =
    | ByFace(result: AgeResult, cfg: Config)
    | ByDocument(check: DocumentCheck, at: int, cutoff: real, minFaceMatch: real)

  datatype Verdict = Verdict(status: Status, basis: Basis)

  datatype Payload = Payload(tx: TxId, status: Status, isOver18: bool, token: Option<Token>)

  /** Where one run of a processor stands. Face checks go Getting, Acquiring, Scoping, Analyzing,
      Issuing (grey zone only), Auditing, Recording, Dispatching, then Deleting and Discarding;
      document checks read two images and decide after the verifier has answered. */
  datatype Pc =
    | Getting
    | GettingSelfie(documentFound: bool)
    | Acquiring(gotAt: int)
    | Scoping
    | Analyzing(cfg: Config)
    | Verifying
    | Deciding(check: DocumentCheck, at: int)
    | Issuing(v: Verdict)
    | Auditing(v: Verdict, token: Option<Token>)
    | Recording(v: Verdict, token: Option<Token>)
    | Dispatching(v: Verdict, token: Option<Token>, tries: int)
    | Deleting
    | DeletingSelfie
    | Discarding
    | Done
    | Failed   // a delete threw inside finally
    | Dead     // the process crashed

  datatype Attempt = Attempt(job: Job, pc: Pc)

  /** Where one HTTP request stands. */
  datatype Request =
    | TookSession(token: Token, tenant: TenantId, createdAt: int)
    | Admitted(tx: TxId, tenant: TenantId)
    | Stored(tx: TxId, tenant: TenantId)
    | TookDocumentSession(tx: TxId, tenant: TenantId, createdAt: int)
    | DocumentAdmitted(tx: TxId, tenant: TenantId)
    | DocumentStored(tx: TxId, tenant: TenantId)
    | BothStored(tx: TxId, tenant: TenantId)
    | Closed

  datatype Session = Session(tenant: TenantId, createdAt: int)
  datatype DocumentSession = DocumentSession(tenant: TenantId, tx: TxId, createdAt: int)
  datatype Row = Row(tenant: TenantId, verdict: Verdict)

  /** The consent row that is written with a session, in the same transaction. */
  datatype Consent = Consent(tenant: TenantId, userHash: string, policyVersion: string, createdAt: int)
  datatype Hold = Hold(attempt: AttemptId, at: int)

  /** History of one transaction. */
  datatype Trail = Trail(
    tenant: TenantId,
    session: Token,                     // the session token it was opened with
    request: RequestId,                 // the request that admitted it
    documentRequest: Option<RequestId>, // the request that took its document session
    issued: seq<Token>,                 // document tokens saved for it
    audits: seq<Verdict>,               // audit rows written, in order
    records: seq<Verdict>,              // verification records written, in order
    sent: seq<Payload>)                 // webhook requests sent, in order

  datatype State = State(
    now: int,
    quota: Quota.State,
    requiredAge: map<TenantId, int>,
    sessions: map<Token, Session>,
    documentSessions: map<Token, DocumentSession>,
    store: map<Ref, FrameStore.Entry<Media>>,
    once: map<Job, Redis.Cell>,
    jobs: map<Job, TenantId>,           // every job ever enqueued
    audit: map<TxId, Row>,
    records: map<TxId, Row>,
    discards: set<Job>,
    requests: map<RequestId, Request>,
    attempts: map<AttemptId, Attempt>,
    // history
    tokens: set<Token>,                 // every token ever drawn
    payments: map<Token, Quota.CallId>,   // session tokens, with the quota call that paid
    consents: map<Token, Consent>,        // session tokens, with the consent row written for them
    consumed: set<Token>,               // session tokens taken by a request
    puts: map<Ref, int>,                // when each ref was last put
    holders: map<Job, seq<Hold>>,       // every successful acquire of a once-key
    trails: map<TxId, Trail>)

  /** What a request handler does between two awaits. */
  datatype HttpEvent =
    | TakeSession(token: Token)
    | Admit(tx: TxId)
    | PutFrame(m: Media)
    | EnqueueFace
    | TakeDocumentSession(token: Token)
    | AdmitDocument
    | PutDocument(m: Media)
    | PutSelfie(m: Media)
    | EnqueueDocument
    | Reject

  /** What a job processor does between two awaits. */
  datatype WorkEvent =
    | Start(job: Job)
    | GetMedia
    | GetSelfie
    | Acquire
    | ReadTenant
    | Analyze(result: AgeResult)
    | VerifyDocument(check: DocumentCheck)
    | IssueToken(token: Token)
    | WriteAudit
    | WriteRecord
    | Send(ok: bool)
    | Throw
    | Delete
    | DeleteSelfie
    | Discard(written: bool)
    | DeleteFails
    | Crash

  datatype Event =
    | Tick(ms: nat)
    | SetRequiredAge(tenant: TenantId, age: int)
    | QuotaStep(q: Quota.Event)
    | OpenSession(call: Quota.CallId, token: Token, userHash: string, policyVersion: string)
    | Http(r: RequestId, h: HttpEvent)
    | Work(a: AttemptId, w: WorkEvent)

  // ----- lookups -----

  function MainRef(job: Job): Ref {
    if job.phase.FacePhase? then FrameRef(job.tx) else DocumentRef(job.tx)
  }

  /** The ref that an attempt reads last, before it takes the once-key. */
  function LastRef(job: Job): Ref {
    if job.phase.FacePhase? then FrameRef(job.tx) else SelfieRef(job.tx)
  }

  function HoldersOf(s: State, job: Job): seq<Hold> {
    if job in s.holders then s.holders[job] else []
  }

  /** Attempt a exists, and so do its job and its transaction. */
  predicate At(s: State, a: AttemptId) {
    a in s.attempts && s.attempts[a].job in s.jobs && s.attempts[a].job.tx in s.trails
  }

  predicate InTry(pc: Pc) {
    pc.Getting? || pc.GettingSelfie? || pc.Acquiring? || Holding(pc)
  }

  /** Inside the try block and past a successful acquire. */
  predicate Holding(pc: Pc) {
    pc.Scoping? || pc.Analyzing? || pc.Verifying? || pc.Deciding? || pc.Issuing? || pc.Auditing?
    || pc.Recording? || pc.Dispatching?
  }

  /** A token that some webhook request of its transaction has carried. */
  predicate Revealed(s: State, tx: TxId, token: Token) {
    tx in s.trails && exists i | 0 <= i < |s.trails[tx].sent| :: s.trails[tx].sent[i].token == Some(token)
  }

  // ----- when an event can happen -----

  /** An integer column takes this number. */
  predicate IntColumn(x: real) {
    x == x.Floor as real && -0x8000_0000 <= x.Floor < 0x8000_0000
  }

  /** The integer columns of the record table take the numbers of the verdict; for anything else,
      a fraction, NaN or more than 32 bits, the write throws. Ages from dates always fit. */
  predicate Storable(v: Verdict) {
    match v.basis
    case ByFace(r, c) => IntColumn(r.estimatedAge) && IntColumn(c.cutoffAge) && IntColumn(c.margin)
    case ByDocument(check, _, cutoff, _) => !check.birth.NotADate? && IntColumn(cutoff)
  }

  predicate HttpEnabled(cfg: Settings, s: State, r: RequestId, h: HttpEvent) {
    if h.TakeSession? then r !in s.requests && h.token in s.sessions
    else if h.TakeDocumentSession? then
      r !in s.requests && h.token in s.documentSessions && Revealed(s, s.documentSessions[h.token].tx, h.token)
    else
      r in s.requests &&
      var q := s.requests[r];
      match h
      case Admit(tx) => q.TookSession? && tx !in s.trails && s.now - q.createdAt <= cfg.sessionTtlMs
      case PutFrame(_) => q.Admitted?
      case EnqueueFace => q.Stored?
      case AdmitDocument => q.TookDocumentSession? && s.now - q.createdAt <= cfg.sessionTtlMs
      case PutDocument(_) => q.DocumentAdmitted?
      case PutSelfie(_) => q.DocumentStored?
      case EnqueueDocument => q.BothStored?
      case Reject => (q.TookSession? || q.TookDocumentSession?) && s.now - q.createdAt > cfg.sessionTtlMs
      case _ => true
  }

  predicate WorkEnabled(cfg: Settings, s: State, a: AttemptId, w: WorkEvent) {
    if w.Start? then a !in s.attempts && w.job in s.jobs && w.job.tx in s.trails
    else
      At(s, a) &&
      var pc := s.attempts[a].pc;
      match w
      case GetMedia => pc.Getting?
      case GetSelfie => pc.GettingSelfie?
      case Acquire => pc.Acquiring?
      case ReadTenant => (pc.Scoping? || pc.Deciding?) && s.jobs[s.attempts[a].job] in s.requiredAge
      case Analyze(_) => pc.Analyzing?
      case VerifyDocument(_) => pc.Verifying?
      case IssueToken(token) => pc.Issuing? && token !in s.tokens
      case WriteAudit => pc.Auditing?
      case WriteRecord => pc.Recording? && Storable(pc.v)
      case Send(_) => pc.Dispatching? && pc.tries <= cfg.retries
      case Throw => InTry(pc)
      case Delete => pc.Deleting?
      case DeleteSelfie => pc.DeletingSelfie?
      case Discard(_) => pc.Discarding?
      case DeleteFails => pc.Deleting? || pc.DeletingSelfie?
      case _ => !pc.Done? && !pc.Failed?
  }

  predicate Enabled(cfg: Settings, s: State, e: Event) {
    match e
    case Tick(_) => true
    case SetRequiredAge(_, age) => 1 <= age <= 120
    case QuotaStep(q) => Quota.Enabled(s.quota, q)
    case OpenSession(call, token, userHash, policyVersion) =>
      && userHash != "" && !Text.AllBlank(policyVersion)
      && call in s.quota.calls && s.quota.calls[call].pc.Won? && call !in s.payments.Values && token !in s.tokens
    case Http(r, h) => HttpEnabled(cfg, s, r, h)
    case Work(a, w) => WorkEnabled(cfg, s, a, w)
  }

  // ----- what it does -----

  function SetRequest(s: State, r: RequestId, q: Request): State {
    s.(requests := s.requests[r := q])
  }

  function Goto(s: State, a: AttemptId, pc: Pc): State
    requires a in s.attempts
  {
    s.(attempts := s.attempts[a := s.attempts[a].(pc := pc)])
  }

  function SetTrail(s: State, tx: TxId, t: Trail): State {
    s.(trails := s.trails[tx := t])
  }

  function Put(cfg: Settings, s: State, ref: Ref, m: Media): State {
    s.(store := FrameStore.Put(s.store, ref, m, cfg.frameTtlSeconds, s.now), puts := s.puts[ref := s.now])
  }

  /** What store.get finds. */
  predicate Found(s: State, ref: Ref) {
    FrameStore.Lookup(s.store, ref, s.now).Some?
  }

  function AfterGet(s: State, a: AttemptId, ref: Ref, next: Pc): State
    requires a in s.attempts
  {
    Goto(s.(store := FrameStore.AfterGet(s.store, ref, s.now)), a, next)
  }

  /** A missing or expired frame makes the face check throw; a document check reads both images
      before it looks at either. */
  function DoGet(s: State, a: AttemptId): State
    requires a in s.attempts
  {
    var job := s.attempts[a].job;
    AfterGet(s, a, MainRef(job),
             if job.phase.DocumentPhase? then GettingSelfie(Found(s, MainRef(job)))
             else if Found(s, MainRef(job)) then Acquiring(s.now) else Deleting)
  }

  /** store.delete of the first ref; a document check has a second one. */
  function DoDelete(s: State, a: AttemptId): State
    requires a in s.attempts
  {
    var job := s.attempts[a].job;
    Goto(s.(store := s.store - {MainRef(job)}), a, if job.phase.FacePhase? then Discarding else DeletingSelfie)
  }

  /** once.acquire: SET NX PX on the job's once-key; whoever finds it taken returns at once. */
  function DoAcquire(cfg: Settings, s: State, a: AttemptId): State
    requires a in s.attempts
  {
    var job := s.attempts[a].job;
    var taken := Redis.Live(s.once, job, s.now);
    Goto(s.(once := if taken then s.once else Redis.SetNx(s.once, job, cfg.onceTtlMs, s.now),
            holders := if taken then s.holders else s.holders[job := HoldersOf(s, job) + [Hold(a, s.now)]]),
         a, if taken then Deleting else if job.phase.FacePhase? then Scoping else Verifying)
  }

  /** Face checks fix their thresholds on reading the tenant, document checks reach their verdict. */
  function AfterTenant(cfg: Settings, pc: Pc, requiredAge: int): Pc
    requires pc.Scoping? || pc.Deciding?
  {
    if pc.Scoping? then Analyzing(FaceConfig(cfg.decision, requiredAge))
    else
      var cutoff := DocumentCutoff(cfg.decision, Some(requiredAge));
      Auditing(Verdict(DecideDocument(AgeFromDocument(pc.check.birth, pc.at), pc.check, cutoff, cfg.minFaceMatch),
                       ByDocument(pc.check, pc.at, cutoff, cfg.minFaceMatch)), None)
  }

  function DoReadTenant(cfg: Settings, s: State, a: AttemptId): State
    requires At(s, a) && s.jobs[s.attempts[a].job] in s.requiredAge
    requires s.attempts[a].pc.Scoping? || s.attempts[a].pc.Deciding?
  {
    Goto(s, a, AfterTenant(cfg, s.attempts[a].pc, s.requiredAge[s.jobs[s.attempts[a].job]]))
  }

  function DoAnalyze(s: State, a: AttemptId, result: AgeResult): State
    requires a in s.attempts && s.attempts[a].pc.Analyzing?
  {
    var cfg := s.attempts[a].pc.cfg;
    var v := Verdict(DecideVerification(result, cfg), ByFace(result, cfg));
    Goto(s, a, if v.status == DocumentoRequerido then Issuing(v) else Auditing(v, None))
  }

  function DoIssue(s: State, a: AttemptId, token: Token): State
    requires At(s, a) && s.attempts[a].pc.Issuing?
  {
    var tx := s.attempts[a].job.tx;
    var t := s.trails[tx];
    var d := DocumentSession(s.jobs[s.attempts[a].job], tx, s.now);
    Goto(SetTrail(s.(documentSessions := s.documentSessions[token := d], tokens := s.tokens + {token}),
                  tx, t.(issued := t.issued + [token])),
         a, Auditing(s.attempts[a].pc.v, Some(token)))
  }

  /** audit.record: an upsert by transaction id. */
  function DoAudit(s: State, a: AttemptId): State
    requires At(s, a) && s.attempts[a].pc.Auditing?
  {
    var tx, pc := s.attempts[a].job.tx, s.attempts[a].pc;
    var t := s.trails[tx];
    Goto(SetTrail(s.(audit := s.audit[tx := Row(s.jobs[s.attempts[a].job], pc.v)]),
                  tx, t.(audits := t.audits + [pc.v])),
         a, Recording(pc.v, pc.token))
  }

  function DoRecord(s: State, a: AttemptId): State
    requires At(s, a) && s.attempts[a].pc.Recording?
  {
    var tx, pc := s.attempts[a].job.tx, s.attempts[a].pc;
    var t := s.trails[tx];
    Goto(SetTrail(s.(records := s.records[tx := Row(s.jobs[s.attempts[a].job], pc.v)]),
                  tx, t.(records := t.records + [pc.v])),
         a, Dispatching(pc.v, pc.token, 0))
  }

  /** One webhook request; a refused one is retried while attempts are left, then dispatch throws. */
  function DoSend(cfg: Settings, s: State, a: AttemptId, ok: bool): State
    requires At(s, a) && s.attempts[a].pc.Dispatching?
  {
    var tx, pc := s.attempts[a].job.tx, s.attempts[a].pc;
    var t := s.trails[tx];
    var p := Payload(tx, pc.v.status, IsOver18(pc.v.status), pc.token);
    Goto(SetTrail(s, tx, t.(sent := t.sent + [p])), a,
         if !ok && pc.tries < cfg.retries then pc.(tries := pc.tries + 1) else Deleting)
  }

  function DoTakeSession(s: State, r: RequestId, token: Token): State
    requires token in s.sessions
  {
    SetRequest(s.(sessions := s.sessions - {token}, consumed := s.consumed + {token}),
               r, TookSession(token, s.sessions[token].tenant, s.sessions[token].createdAt))
  }

  function DoAdmit(s: State, r: RequestId, tx: TxId): State
    requires r in s.requests && s.requests[r].TookSession?
  {
    var q := s.requests[r];
    SetRequest(SetTrail(s, tx, Trail(q.tenant, q.token, r, None, [], [], [], [])), r, Admitted(tx, q.tenant))
  }

  function DoPutFrame(cfg: Settings, s: State, r: RequestId, m: Media): State
    requires r in s.requests && s.requests[r].Admitted?
  {
    var q := s.requests[r];
    SetRequest(Put(cfg, s, FrameRef(q.tx), m), r, Stored(q.tx, q.tenant))
  }

  function DoEnqueueFace(s: State, r: RequestId): State
    requires r in s.requests && s.requests[r].Stored?
  {
    var q := s.requests[r];
    SetRequest(s.(jobs := s.jobs[Job(q.tx, FacePhase) := q.tenant]), r, Closed)
  }

  function DoTakeDocumentSession(s: State, r: RequestId, token: Token): State
    requires token in s.documentSessions && s.documentSessions[token].tx in s.trails
  {
    var d := s.documentSessions[token];
    SetRequest(SetTrail(s.(documentSessions := s.documentSessions - {token}),
                        d.tx, s.trails[d.tx].(documentRequest := Some(r))),
               r, TookDocumentSession(d.tx, d.tenant, d.createdAt))
  }

  function DoAdmitDocument(s: State, r: RequestId): State
    requires r in s.requests && s.requests[r].TookDocumentSession?
  {
    SetRequest(s, r, DocumentAdmitted(s.requests[r].tx, s.requests[r].tenant))
  }

  function DoPutDocument(cfg: Settings, s: State, r: RequestId, m: Media): State
    requires r in s.requests && s.requests[r].DocumentAdmitted?
  {
    var q := s.requests[r];
    SetRequest(Put(cfg, s, DocumentRef(q.tx), m), r, DocumentStored(q.tx, q.tenant))
  }

  function DoPutSelfie(cfg: Settings, s: State, r: RequestId, m: Media): State
    requires r in s.requests && s.requests[r].DocumentStored?
  {
    var q := s.requests[r];
    SetRequest(Put(cfg, s, SelfieRef(q.tx), m), r, BothStored(q.tx, q.tenant))
  }

  function DoEnqueueDocument(s: State, r: RequestId): State
    requires r in s.requests && s.requests[r].BothStored?
  {
    var q := s.requests[r];
    SetRequest(s.(jobs := s.jobs[Job(q.tx, DocumentPhase) := q.tenant]), r, Closed)
  }

  function HttpApply(cfg: Settings, s: State, r: RequestId, h: HttpEvent): State
    requires HttpEnabled(cfg, s, r, h)
  {
    match h
    case TakeSession(token) => DoTakeSession(s, r, token)
    case Admit(tx) => DoAdmit(s, r, tx)
    case PutFrame(m) => DoPutFrame(cfg, s, r, m)
    case EnqueueFace => DoEnqueueFace(s, r)
    case TakeDocumentSession(token) => DoTakeDocumentSession(s, r, token)
    case AdmitDocument => DoAdmitDocument(s, r)
    case PutDocument(m) => DoPutDocument(cfg, s, r, m)
    case PutSelfie(m) => DoPutSelfie(cfg, s, r, m)
    case EnqueueDocument => DoEnqueueDocument(s, r)
    case Reject => SetRequest(s, r, Closed)
  }

  function DoStart(s: State, a: AttemptId, job: Job): State {
    s.(attempts := s.attempts[a := Attempt(job, Getting)])
  }

  function DoGetSelfie(s: State, a: AttemptId): State
    requires a in s.attempts && s.attempts[a].pc.GettingSelfie?
  {
    var ref := SelfieRef(s.attempts[a].job.tx);
    AfterGet(s, a, ref, if s.attempts[a].pc.documentFound && Found(s, ref) then Acquiring(s.now) else Deleting)
  }

  function DoVerify(s: State, a: AttemptId, check: DocumentCheck): State
    requires a in s.attempts
  {
    Goto(s, a, Deciding(check, s.now))
  }

  function DoDeleteSelfie(s: State, a: AttemptId): State
    requires a in s.attempts
  {
    Goto(s.(store := s.store - {SelfieRef(s.attempts[a].job.tx)}), a, Discarding)
  }

  /** discard.record never throws, but its row may fail to be written. */
  function DoDiscard(s: State, a: AttemptId, written: bool): State
    requires a in s.attempts
  {
    Goto(s.(discards := if written then s.discards + {s.attempts[a].job} else s.discards), a, Done)
  }

  function WorkApply(cfg: Settings, s: State, a: AttemptId, w: WorkEvent): State
    requires WorkEnabled(cfg, s, a, w)
  {
    match w
    case Start(job) => DoStart(s, a, job)
    case GetMedia => DoGet(s, a)
    case GetSelfie => DoGetSelfie(s, a)
    case Acquire => DoAcquire(cfg, s, a)
    case ReadTenant => DoReadTenant(cfg, s, a)
    case Analyze(result) => DoAnalyze(s, a, result)
    case VerifyDocument(check) => DoVerify(s, a, check)
    case IssueToken(token) => DoIssue(s, a, token)
    case WriteAudit => DoAudit(s, a)
    case WriteRecord => DoRecord(s, a)
    case Send(ok) => DoSend(cfg, s, a, ok)
    case Throw => Goto(s, a, Deleting)
    case Delete => DoDelete(s, a)
    case DeleteSelfie => DoDeleteSelfie(s, a)
    case Discard(written) => DoDiscard(s, a, written)
    case DeleteFails => Goto(s, a, Failed)
    case Crash => Goto(s, a, Dead)
  }

  function Apply(cfg: Settings, s: State, e: Event): State
    requires Enabled(cfg, s, e)
  {
    match e
    case Tick(ms) => s.(now := s.now + ms)
    case SetRequiredAge(t, age) => s.(requiredAge := s.requiredAge[t := age])
    case QuotaStep(q) => s.(quota := Quota.Apply(s.quota, q, s.now))
    case OpenSession(call, token, userHash, policyVersion) =>
      var tenant := s.quota.calls[call].key.tenant;
      s.(sessions := s.sessions[token := Session(tenant, s.now)], tokens := s.tokens + {token},
         payments := s.payments[token := call],
         consents := s.consents[token := Consent(tenant, userHash, policyVersion, s.now)])
    case Http(r, h) => HttpApply(cfg, s, r, h)
    case Work(a, w) => WorkApply(cfg, s, a, w)
  }

  // ----- runs -----

  /** If the step takes a once-key, then within that gap of reading the media. */
  predicate AcquireWithin(s: State, e: Event, gap: int) {
    e.Work? && e.w.Acquire? && e.a in s.attempts && s.attempts[e.a].pc.Acquiring? ==>
      s.now - s.attempts[e.a].pc.gotAt <= gap
  }

  /** The longest gap that is short enough. */
  function Slack(cfg: Settings): int {
    cfg.onceTtlMs - cfg.frameTtlSeconds * 1000
  }

  predicate Timely(cfg: Settings, s: State, e: Event) {
    AcquireWithin(s, e, Slack(cfg))
  }

  function Initial(now: int, plans: map<TenantId, Quota.Plan>, ages: map<TenantId, int>): State {
    State(now, Quota.Initial(plans), ages, map[], map[], map[], map[], map[], map[], map[], {}, map[], map[],
          {}, map[], map[], {}, map[], map[], map[])
  }
}
