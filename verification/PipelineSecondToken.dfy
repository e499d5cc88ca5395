/** Why the erasure of the two images needs a single document token: a slow run in which both
    holders of a face check draw one, and the second submission puts back what the first document
    check has erased. */
module PipelineSecondToken {
  import opened Wrappers
  import opened Decision
  import opened Pipeline
  import opened PipelineTheorems
  import opened PipelineWitness
  import opened PipelineErasure

  const FACE: Job := Job(0, FacePhase)
  const DOC: Job := Job(0, DocumentPhase)
  const ZERO: State := PipelineWitness.Start()

  /** The tables that the run moves. */
  datatype View = View(now: int, att: map<AttemptId, Attempt>, t: Trail, ds: map<Token, DocumentSession>,
                       tokens: set<Token>, rq: map<RequestId, Request>, jobs: map<Job, TenantId>)

  predicate Shows(s: State, v: View) {
    && s.now == v.now && s.attempts == v.att && s.trails == map[0 := v.t] && s.documentSessions == v.ds
    && s.tokens == v.tokens && s.requests == v.rq && s.jobs == v.jobs && s.requiredAge == map[0 := 18]
    && (forall job | job in v.jobs :: v.jobs[job] == 0)
  }

  /** That event can happen, and leads from what v says to what w says. */
  predicate Leads(cfg: Settings, v: View, e: Event, w: View, s: State) {
    Shows(s, v) && Enabled(cfg, s, e) && Shows(Apply(cfg, s, e), w)
  }

  function Moved(v: View, a: AttemptId, pc: Pc): View
    requires a in v.att
  {
    v.(att := v.att[a := v.att[a].(pc := pc)])
  }

  predicate Stands(v: View, a: AttemptId, job: Job, pc: Pc) {
    a in v.att && v.att[a] == Attempt(job, pc) && job in v.jobs && job.tx == 0
  }

  // ----- a face check that ends in the grey zone -----

  lemma ReadGoes(cfg: Settings, s: State, v: View, a: AttemptId)
    requires Shows(s, v) && Stands(v, a, FACE, Scoping)
    ensures Leads(cfg, v, Work(a, ReadTenant), Moved(v, a, Analyzing(FaceConfig(cfg.decision, 18))), s)
  {
    hide FaceConfig;
    assert Apply(cfg, s, Work(a, ReadTenant)) == DoReadTenant(cfg, s, a);
  }

  lemma GreyGoes(cfg: Settings, s: State, v: View, a: AttemptId)
    requires Retries(cfg) && Shows(s, v) && Stands(v, a, FACE, Analyzing(FaceConfig(cfg.decision, 18)))
    ensures Leads(cfg, v, Work(a, Analyze(GreyResult(cfg))), Moved(v, a, Issuing(Grey(cfg))), s)
  {
    GreyIsGrey(cfg);
    hide FaceConfig, DecideVerification, Storable;
    assert Apply(cfg, s, Work(a, Analyze(GreyResult(cfg)))) == DoAnalyze(s, a, GreyResult(cfg));
  }

  function Issued(v: View, a: AttemptId, x: Verdict, k: Token): View
    requires a in v.att
  {
    Moved(v, a, Auditing(x, Some(k))).(t := v.t.(issued := v.t.issued + [k]),
      ds := v.ds[k := DocumentSession(0, 0, v.now)], tokens := v.tokens + {k})
  }

  lemma IssueGoes(cfg: Settings, s: State, v: View, a: AttemptId, x: Verdict, k: Token)
    requires Shows(s, v) && Stands(v, a, FACE, Issuing(x)) && k !in v.tokens
    ensures Leads(cfg, v, Work(a, IssueToken(k)), Issued(v, a, x, k), s)
  {
    assert Apply(cfg, s, Work(a, IssueToken(k))) == DoIssue(s, a, k);
    hide Shows, Issued;
    IssueShows(s, v, a, x, k);
  }

  lemma IssueShows(s: State, v: View, a: AttemptId, x: Verdict, k: Token)
    requires Shows(s, v) && Stands(v, a, FACE, Issuing(x)) && At(s, a) && s.attempts[a].pc.Issuing?
    ensures Shows(DoIssue(s, a, k), Issued(v, a, x, k))
  {
  }

  function Audited(v: View, a: AttemptId, x: Verdict, k: Token): View
    requires a in v.att
  {
    Moved(v, a, Recording(x, Some(k))).(t := v.t.(audits := v.t.audits + [x]))
  }

  lemma AuditGoes(cfg: Settings, s: State, v: View, a: AttemptId, x: Verdict, k: Token)
    requires Shows(s, v) && Stands(v, a, FACE, Auditing(x, Some(k)))
    ensures Leads(cfg, v, Work(a, WriteAudit), Audited(v, a, x, k), s)
  {
    assert Apply(cfg, s, Work(a, WriteAudit)) == DoAudit(s, a);
    hide Shows, Audited;
    AuditShows(s, v, a, x, k);
  }

  lemma AuditShows(s: State, v: View, a: AttemptId, x: Verdict, k: Token)
    requires Shows(s, v) && Stands(v, a, FACE, Auditing(x, Some(k))) && At(s, a) && s.attempts[a].pc.Auditing?
    ensures Shows(DoAudit(s, a), Audited(v, a, x, k))
  {
  }

  function Recorded(v: View, a: AttemptId, x: Verdict, k: Token): View
    requires a in v.att
  {
    Moved(v, a, Dispatching(x, Some(k), 0)).(t := v.t.(records := v.t.records + [x]))
  }

  lemma RecordGoes(cfg: Settings, s: State, v: View, a: AttemptId, x: Verdict, k: Token)
    requires Shows(s, v) && Stands(v, a, FACE, Recording(x, Some(k))) && Storable(x)
    ensures Leads(cfg, v, Work(a, WriteRecord), Recorded(v, a, x, k), s)
  {
    RecordShows(s, v, a, x, k);
    hide Storable, Recorded, DoRecord;
    assert At(s, a);
    assert Apply(cfg, s, Work(a, WriteRecord)) == DoRecord(s, a);
  }

  lemma RecordShows(s: State, v: View, a: AttemptId, x: Verdict, k: Token)
    requires Shows(s, v) && Stands(v, a, FACE, Recording(x, Some(k)))
    ensures At(s, a) && Shows(DoRecord(s, a), Recorded(v, a, x, k))
  {
  }

  function Announced(v: View, a: AttemptId, x: Verdict, k: Token): View
    requires a in v.att
  {
    Moved(v, a, Deleting).(t := v.t.(sent := v.t.sent + [Payload(0, x.status, IsOver18(x.status), Some(k))]))
  }

  lemma SendGoes(cfg: Settings, s: State, v: View, a: AttemptId, x: Verdict, k: Token)
    requires Shows(s, v) && Stands(v, a, FACE, Dispatching(x, Some(k), 0)) && cfg.retries >= 0
    ensures Leads(cfg, v, Work(a, Send(true)), Announced(v, a, x, k), s)
  {
    assert Apply(cfg, s, Work(a, Send(true))) == DoSend(cfg, s, a, true);
  }

  /** A run of events, each no acquire, seen through the views. */
  ghost predicate Seen(cfg: Settings, run: seq<Event>, s: State, v: View) {
    Reaches(cfg, ZERO, run, s, cfg.onceTtlMs) && Shows(s, v)
  }

  lemma Next(cfg: Settings, run: seq<Event>, s: State, v: View, e: Event, w: View)
    returns (longer: seq<Event>, u: State)
    requires Seen(cfg, run, s, v) && Leads(cfg, v, e, w, s) && !(e.Work? && e.w.Acquire?)
    ensures Seen(cfg, longer, u, w) && u == Apply(cfg, s, e) && longer == run + [e]
  {
    hide Enabled, Apply, Reaches, Shows;
    longer, u := Then(cfg, ZERO, run, s, cfg.onceTtlMs, e);
  }

  lemma Decides(cfg: Settings, run: seq<Event>, s: State, v: View, a: AttemptId)
    returns (longer: seq<Event>, u: State, w: View)
    requires Retries(cfg) && Seen(cfg, run, s, v) && Stands(v, a, FACE, Scoping)
    ensures Seen(cfg, longer, u, w) && w == Moved(v, a, Issuing(Grey(cfg)))
  {
    hide Reaches, Enabled, Apply, Leads, Grey, GreyResult, FaceConfig, Shows;
    w := Moved(v, a, Analyzing(FaceConfig(cfg.decision, 18)));
    ReadGoes(cfg, s, v, a);
    longer, u := Next(cfg, run, s, v, Work(a, ReadTenant), w);
    GreyGoes(cfg, u, w, a);
    longer, u := Next(cfg, longer, u, w, Work(a, Analyze(GreyResult(cfg))), Moved(w, a, Issuing(Grey(cfg))));
    w := Moved(w, a, Issuing(Grey(cfg)));
  }

  /** All that a grey-zone face check writes and sends. */
  function Written(v: View, a: AttemptId, x: Verdict, k: Token): View
    requires a in v.att
  {
    Announced(Recorded(Audited(Issued(v, a, x, k), a, x, k), a, x, k), a, x, k)
  }

  lemma Writes(cfg: Settings, run: seq<Event>, s: State, v: View, a: AttemptId, k: Token)
    returns (longer: seq<Event>, u: State)
    requires Retries(cfg) && Seen(cfg, run, s, v) && Stands(v, a, FACE, Issuing(Grey(cfg))) && k !in v.tokens
    ensures Seen(cfg, longer, u, Written(v, a, Grey(cfg), k))
  {
    var x := Grey(cfg);
    GreyIsGrey(cfg);
    hide Seen, Enabled, Apply, Leads, Grey, Storable, Shows;
    var i := Issued(v, a, x, k);
    assert Shows(s, v) by { SeenShows(cfg, run, s, v); }
    IssueGoes(cfg, s, v, a, x, k);
    longer, u := Next(cfg, run, s, v, Work(a, IssueToken(k)), i);
    SeenShows(cfg, longer, u, i);
    AuditGoes(cfg, u, i, a, x, k);
    var j := Audited(i, a, x, k);
    longer, u := Next(cfg, longer, u, i, Work(a, WriteAudit), j);
    SeenShows(cfg, longer, u, j);
    RecordGoes(cfg, u, j, a, x, k);
    i := Recorded(j, a, x, k);
    longer, u := Next(cfg, longer, u, j, Work(a, WriteRecord), i);
    SeenShows(cfg, longer, u, i);
    SendGoes(cfg, u, i, a, x, k);
    longer, u := Next(cfg, longer, u, i, Work(a, Send(true)), Announced(i, a, x, k));
  }

  lemma SeenShows(cfg: Settings, run: seq<Event>, s: State, v: View)
    requires Seen(cfg, run, s, v)
    ensures Shows(s, v)
  {
  }

  // ----- both holders -----

  function Opened(now: int, rq: map<RequestId, Request>): View {
    View(now, map[0 := Attempt(FACE, Scoping), 1 := Attempt(FACE, Scoping)], EMPTY, map[], {0}, rq, map[FACE := 0])
  }

  /** Two attempts have read the frame, one holds the key. */
  predicate OneHolds(cfg: Settings, s: State, now: int, second: Pc) {
    && FirstHolds(cfg, s.(attempts := map[0 := Attempt(FACE, Scoping)], now := 0), 0) && s.now == now
    && s.attempts == map[0 := Attempt(FACE, Scoping), 1 := Attempt(FACE, second)]
  }

  lemma SecondReads(cfg: Settings) returns (run: seq<Event>, s: State)
    requires Usable(cfg)
    ensures Reaches(cfg, ZERO, run, s, cfg.onceTtlMs) && OneHolds(cfg, s, cfg.onceTtlMs, Acquiring(0))
  {
    var gap := cfg.onceTtlMs;
    run, s := TakeKey(cfg, gap);
    hide Reaches;
    run, s := Then(cfg, ZERO, run, s, gap, Work(1, WorkEvent.Start(FACE)));
    assert OneHolds(cfg, s, 0, Getting);
    run, s := Then(cfg, ZERO, run, s, gap, Work(1, GetMedia));
    assert OneHolds(cfg, s, 0, Acquiring(0));
    run, s := Then(cfg, ZERO, run, s, gap, Tick(gap));
  }

  lemma SecondHolds(cfg: Settings, s: State)
    requires OneHolds(cfg, s, cfg.onceTtlMs, Acquiring(0))
    ensures Enabled(cfg, s, Work(1, Acquire)) && Shows(DoAcquire(cfg, s, 1), Opened(cfg.onceTtlMs, s.requests))
  {
  }

  lemma TwoHolders(cfg: Settings) returns (run: seq<Event>, s: State)
    requires Usable(cfg)
    ensures Seen(cfg, run, s, Opened(cfg.onceTtlMs, s.requests)) && s.requests.Keys == {0}
  {
    run, s := SecondReads(cfg);
    SecondHolds(cfg, s);
    assert AcquireWithin(s, Work(1, Acquire), cfg.onceTtlMs) && s.requests.Keys == {0};
    assert DoAcquire(cfg, s, 1).requests == s.requests;
    hide Reaches, DoAcquire, Shows, OneHolds;
    run, s := Then(cfg, ZERO, run, s, cfg.onceTtlMs, Work(1, Acquire));
  }

  // ----- a document submission -----

  function Requests(v: View, r: RequestId, q: Request): View {
    v.(rq := v.rq[r := q])
  }

  function Taken(v: View, r: RequestId, k: Token): View
    requires k in v.ds
  {
    Requests(v, r, TookDocumentSession(0, 0, v.ds[k].createdAt)).(ds := v.ds - {k},
        t := v.t.(documentRequest := Some(r)))
  }

  lemma TakeGoes(cfg: Settings, s: State, v: View, r: RequestId, k: Token, i: nat)
    requires Shows(s, v) && r !in v.rq && k in v.ds && v.ds[k].tx == 0 && v.ds[k].tenant == 0
    requires i < |v.t.sent| && v.t.sent[i].token == Some(k)
    ensures Leads(cfg, v, Http(r, TakeDocumentSession(k)), Taken(v, r, k), s)
  {
    assert Revealed(s, 0, k) by { IsRevealed(s, k, i); }
    assert Apply(cfg, s, Http(r, TakeDocumentSession(k))) == DoTakeDocumentSession(s, r, k);
    hide Revealed, Shows, Taken;
    TakenShows(s, v, r, k);
  }

  lemma IsRevealed(s: State, k: Token, i: nat)
    requires 0 in s.trails && i < |s.trails[0].sent| && s.trails[0].sent[i].token == Some(k)
    ensures Revealed(s, 0, k)
  {
  }

  lemma TakenShows(s: State, v: View, r: RequestId, k: Token)
    requires Shows(s, v) && k in v.ds && v.ds[k].tx == 0 && v.ds[k].tenant == 0
    requires k in s.documentSessions && s.documentSessions[k].tx in s.trails
    ensures Shows(DoTakeDocumentSession(s, r, k), Taken(v, r, k))
  {
  }

  lemma AdmitGoes(cfg: Settings, s: State, v: View, r: RequestId)
    requires Shows(s, v) && r in v.rq && v.rq[r] == TookDocumentSession(0, 0, v.now) && cfg.sessionTtlMs >= 0
    ensures Leads(cfg, v, Http(r, AdmitDocument), Requests(v, r, DocumentAdmitted(0, 0)), s)
  {
    assert Apply(cfg, s, Http(r, AdmitDocument)) == DoAdmitDocument(s, r);
  }

  lemma PutGoes(cfg: Settings, s: State, v: View, r: RequestId)
    requires Shows(s, v) && r in v.rq && v.rq[r] == DocumentAdmitted(0, 0)
    ensures Leads(cfg, v, Http(r, PutDocument(IMAGE)), Requests(v, r, DocumentStored(0, 0)), s)
    ensures DocumentRef(0) in Apply(cfg, s, Http(r, PutDocument(IMAGE))).store
  {
    assert Apply(cfg, s, Http(r, PutDocument(IMAGE))) == DoPutDocument(cfg, s, r, IMAGE);
  }

  lemma SelfieGoes(cfg: Settings, s: State, v: View, r: RequestId)
    requires Shows(s, v) && r in v.rq && v.rq[r] == DocumentStored(0, 0)
    ensures Leads(cfg, v, Http(r, PutSelfie(IMAGE)), Requests(v, r, BothStored(0, 0)), s)
  {
    assert Apply(cfg, s, Http(r, PutSelfie(IMAGE))) == DoPutSelfie(cfg, s, r, IMAGE);
  }

  lemma EnqueueGoes(cfg: Settings, s: State, v: View, r: RequestId)
    requires Shows(s, v) && r in v.rq && v.rq[r] == BothStored(0, 0)
    ensures Leads(cfg, v, Http(r, EnqueueDocument), Requests(v, r, Closed).(jobs := v.jobs[DOC := 0]), s)
  {
    assert Apply(cfg, s, Http(r, EnqueueDocument)) == DoEnqueueDocument(s, r);
  }

  /** The session of token k is taken, in time. */
  lemma Takes(cfg: Settings, run: seq<Event>, s: State, v: View, r: RequestId, k: Token, i: nat)
    returns (longer: seq<Event>, u: State, w: View)
    requires Seen(cfg, run, s, v) && r !in v.rq && k in v.ds && v.ds[k] == DocumentSession(0, 0, v.now)
    requires i < |v.t.sent| && v.t.sent[i].token == Some(k) && cfg.sessionTtlMs >= 0
    ensures Seen(cfg, longer, u, w) && run <= longer
    ensures w == Taken(v, r, k).(rq := v.rq[r := DocumentAdmitted(0, 0)])
  {
    hide Reaches, Enabled, Apply, Leads, Shows;
    TakeGoes(cfg, s, v, r, k, i);
    longer, u := Next(cfg, run, s, v, Http(r, TakeDocumentSession(k)), Taken(v, r, k));
    w := Taken(v, r, k);
    AdmitGoes(cfg, u, w, r);
    longer, u := Next(cfg, longer, u, w, Http(r, AdmitDocument), Requests(w, r, DocumentAdmitted(0, 0)));
    w := Requests(w, r, DocumentAdmitted(0, 0));
  }

  /** Then the document is stored. */
  lemma Presents(cfg: Settings, run: seq<Event>, s: State, v: View, r: RequestId, k: Token, i: nat)
    returns (longer: seq<Event>, u: State, w: View)
    requires Seen(cfg, run, s, v) && r !in v.rq && k in v.ds && v.ds[k] == DocumentSession(0, 0, v.now)
    requires i < |v.t.sent| && v.t.sent[i].token == Some(k) && cfg.sessionTtlMs >= 0
    ensures Seen(cfg, longer, u, w) && run <= longer && DocumentRef(0) in u.store
    ensures w == Taken(v, r, k).(rq := v.rq[r := DocumentStored(0, 0)])
  {
    hide Reaches, Enabled, Apply, Leads, Shows;
    longer, u, w := Takes(cfg, run, s, v, r, k, i);
    PutGoes(cfg, u, w, r);
    longer, u := Next(cfg, longer, u, w, Http(r, PutDocument(IMAGE)), Requests(w, r, DocumentStored(0, 0)));
    w := Requests(w, r, DocumentStored(0, 0));
  }

  lemma Submits(cfg: Settings, run: seq<Event>, s: State, v: View, r: RequestId)
    returns (longer: seq<Event>, u: State, w: View)
    requires Seen(cfg, run, s, v) && r in v.rq && v.rq[r] == DocumentStored(0, 0)
    ensures Seen(cfg, longer, u, w) && run <= longer && w == v.(rq := v.rq[r := Closed], jobs := v.jobs[DOC := 0])
  {
    hide Reaches, Enabled, Apply, Leads, Shows;
    SelfieGoes(cfg, s, v, r);
    longer, u := Next(cfg, run, s, v, Http(r, PutSelfie(IMAGE)), Requests(v, r, BothStored(0, 0)));
    w := Requests(v, r, BothStored(0, 0));
    EnqueueGoes(cfg, u, w, r);
    var x := Requests(w, r, Closed).(jobs := w.jobs[DOC := 0]);
    longer, u := Next(cfg, longer, u, w, Http(r, EnqueueDocument), x);
    w := x;
  }

  // ----- a document check that throws at once -----

  lemma StartGoes(cfg: Settings, s: State, v: View, a: AttemptId)
    requires Shows(s, v) && a !in v.att && DOC in v.jobs
    ensures Leads(cfg, v, Work(a, WorkEvent.Start(DOC)), v.(att := v.att[a := Attempt(DOC, Getting)]), s)
  {
  }

  function Following(pc: Pc): (WorkEvent, Pc) {
    match pc
    case Getting => (Throw, Deleting)
    case Deleting => (Delete, DeletingSelfie)
    case DeletingSelfie => (DeleteSelfie, Discarding)
    case _ => (Discard(true), Done)
  }

  lemma FinallyGoes(cfg: Settings, s: State, v: View, a: AttemptId, pc: Pc)
    requires Shows(s, v) && Stands(v, a, DOC, pc)
    requires pc.Getting? || pc.Deleting? || pc.DeletingSelfie? || pc.Discarding?
    ensures Leads(cfg, v, Work(a, Following(pc).0), Moved(v, a, Following(pc).1), s)
  {
    hide Shows, WorkApply, WorkEnabled, Following;
    StandsThere(s, v, a, pc);
    FollowingGoes(cfg, s, a, pc);
    OnlyMoves(s, WorkApply(cfg, s, a, Following(pc).0), v, a, Following(pc).1);
  }

  lemma FollowingGoes(cfg: Settings, s: State, a: AttemptId, pc: Pc)
    requires At(s, a) && s.attempts[a] == Attempt(DOC, pc)
    requires pc.Getting? || pc.Deleting? || pc.DeletingSelfie? || pc.Discarding?
    ensures WorkEnabled(cfg, s, a, Following(pc).0)
    ensures var t := WorkApply(cfg, s, a, Following(pc).0);
            t == s.(attempts := s.attempts[a := s.attempts[a].(pc := Following(pc).1)], store := t.store,
                    discards := t.discards)
  {
  }

  lemma StandsThere(s: State, v: View, a: AttemptId, pc: Pc)
    requires Shows(s, v) && Stands(v, a, DOC, pc)
    ensures At(s, a) && s.attempts[a] == Attempt(DOC, pc)
  {
  }

  lemma OnlyMoves(s: State, t: State, v: View, a: AttemptId, pc: Pc)
    requires Shows(s, v) && a in s.attempts
    requires t == s.(attempts := s.attempts[a := s.attempts[a].(pc := pc)], store := t.store, discards := t.discards)
    ensures Shows(t, Moved(v, a, pc))
  {
  }

  lemma Erases(cfg: Settings, run: seq<Event>, s: State, v: View, a: AttemptId)
    returns (longer: seq<Event>, u: State, w: View)
    requires Seen(cfg, run, s, v) && a !in v.att && DOC in v.jobs
    ensures Seen(cfg, longer, u, w) && run <= longer && w == v.(att := v.att[a := Attempt(DOC, Done)])
  {
    hide Reaches, Enabled, Apply, Leads, Shows;
    StartGoes(cfg, s, v, a);
    w := v.(att := v.att[a := Attempt(DOC, Getting)]);
    longer, u := Next(cfg, run, s, v, Work(a, WorkEvent.Start(DOC)), w);
    var more;
    more, u, w := Ends(cfg, longer, u, w, a, Getting);
    longer := more;
  }

  function Rank(pc: Pc): nat {
    if pc.Getting? then 3 else if pc.Deleting? then 2 else if pc.DeletingSelfie? then 1 else 0
  }

  lemma Ends(cfg: Settings, run: seq<Event>, s: State, v: View, a: AttemptId, pc: Pc)
    returns (longer: seq<Event>, u: State, w: View)
    requires Seen(cfg, run, s, v) && Stands(v, a, DOC, pc)
    requires pc.Getting? || pc.Deleting? || pc.DeletingSelfie? || pc.Discarding?
    ensures Seen(cfg, longer, u, w) && run <= longer && w == v.(att := v.att[a := Attempt(DOC, Done)])
    decreases Rank(pc)
  {
    hide Reaches, Enabled, Apply, Leads, Shows;
    FinallyGoes(cfg, s, v, a, pc);
    w := Moved(v, a, Following(pc).1);
    longer, u := Next(cfg, run, s, v, Work(a, Following(pc).0), w);
    if !pc.Discarding? {
      var more;
      more, u, w := Ends(cfg, longer, u, w, a, Following(pc).1);
      longer := more;
    }
  }

  // ----- the whole run -----

  /** Both holders have drawn a token and announced it. */
  predicate BothAnnounced(v: View) {
    && v.ds == map[1 := DocumentSession(0, 0, v.now), 2 := DocumentSession(0, 0, v.now)] && v.t.issued == [1, 2]
    && |v.t.sent| == 2 && v.t.sent[0].token == Some(1) && v.t.sent[1].token == Some(2)
    && v.rq.Keys == {0} && v.att.Keys == {0, 1} && FACE in v.jobs
  }

  /** The first has, the second is about to read the tenant. */
  predicate OneAnnounced(v: View) {
    && v.ds == map[1 := DocumentSession(0, 0, v.now)] && v.t.issued == [1] && v.tokens == {0, 1}
    && |v.t.sent| == 1 && v.t.sent[0].token == Some(1) && v.rq.Keys == {0}
    && v.att.Keys == {0, 1} && v.att[1] == Attempt(FACE, Scoping) && v.jobs == map[FACE := 0]
  }

  lemma FirstView(now: int, rq: map<RequestId, Request>, pc: Pc, x: Verdict)
    requires rq.Keys == {0}
    ensures OneAnnounced(Written(Moved(Opened(now, rq), 0, pc), 0, x, 1))
  {
    assert [] + [1] == [1];
  }

  lemma SecondView(v: View, pc: Pc, x: Verdict)
    requires OneAnnounced(v)
    ensures BothAnnounced(Written(Moved(v, 1, pc), 1, x, 2))
  {
    assert [1] + [2] == [1, 2];
  }

  lemma OneToken(cfg: Settings) returns (run: seq<Event>, s: State, v: View)
    requires Retries(cfg)
    ensures Seen(cfg, run, s, v) && OneAnnounced(v)
  {
    run, s := TwoHolders(cfg);
    v := Opened(cfg.onceTtlMs, s.requests);
    hide Seen, Grey, Written, OneAnnounced;
    FirstView(v.now, v.rq, Issuing(Grey(cfg)), Grey(cfg));
    run, s, v := Decides(cfg, run, s, v, 0);
    run, s := Writes(cfg, run, s, v, 0, 1);
    v := Written(v, 0, Grey(cfg), 1);
  }

  lemma TwoTokens(cfg: Settings) returns (run: seq<Event>, s: State, v: View)
    requires Retries(cfg)
    ensures Seen(cfg, run, s, v) && BothAnnounced(v)
  {
    run, s, v := OneToken(cfg);
    hide Seen, Grey, Written, BothAnnounced;
    SecondView(v, Issuing(Grey(cfg)), Grey(cfg));
    run, s, v := Decides(cfg, run, s, v, 1);
    run, s := Writes(cfg, run, s, v, 1, 2);
    v := Written(v, 1, Grey(cfg), 2);
  }

  lemma DoneIsFinished(cfg: Settings, run: seq<Event>, s: State, v: View)
    requires Seen(cfg, run, s, v) && 2 in v.att && v.att[2] == Attempt(DOC, Done)
    ensures Legal(cfg, ZERO, run) && Finished(Final(cfg, ZERO, run), DOC)
  {
    hide Legal, Final;
    assert s.attempts[2] == Attempt(DOC, Done);
  }

  /** A legal run in which a document check has come to its end and erased both images, and a second
      submission for the same transaction has put the document again: two document tokens were
      issued, because the face check was verified twice. */
  lemma ImageComesBack(cfg: Settings) returns (run: seq<Event>, k: nat)
    requires Retries(cfg)
    ensures Legal(cfg, ZERO, run) && k <= |run| && Legal(cfg, ZERO, run[..k])
    ensures Finished(Final(cfg, ZERO, run[..k]), DOC)
    ensures var s := Final(cfg, ZERO, run); 0 in s.trails && s.trails[0].issued == [1, 2] && DocumentRef(0) in s.store
  {
    var s, v;
    run, s, v := TwoTokens(cfg);
    hide Enabled, Apply, Seen, Finished, Legal, Final;
    run, s, v := Presents(cfg, run, s, v, 1, 1, 0);
    run, s, v := Submits(cfg, run, s, v, 1);
    run, s, v := Erases(cfg, run, s, v, 2);
    DoneIsFinished(cfg, run, s, v);
    k := |run|;
    var early := run;
    run, s, v := Presents(cfg, run, s, v, 2, 2, 1);
    assert run[..k] == early;
    IsFinal(cfg, run, s, v);
  }

  lemma IsFinal(cfg: Settings, run: seq<Event>, s: State, v: View)
    requires Seen(cfg, run, s, v)
    ensures Legal(cfg, ZERO, run) && Final(cfg, ZERO, run) == s && s.trails == map[0 := v.t]
  {
  }
}
