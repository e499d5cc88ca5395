/** Runs of the service in which the naive claims fail: a double verification as soon as one gap is
    a millisecond too long, a lost transaction, and a webhook that comes after its time. */
module PipelineWitness {
  import opened Wrappers
  import opened Decision
  import opened Pipeline
  import opened PipelineTheorems
  import opened PipelineAnyRun
  import opened PipelineTruth
  import Calendar
  import Redis
  import Quota
  import Text

  /** Every acquire of the run comes within that gap of its get. */
  predicate GapsWithin(cfg: Settings, s0: State, run: seq<Event>, gap: int)
    requires Legal(cfg, s0, run)
    decreases |run|
  {
    run == [] || (GapsWithin(cfg, s0, Front(run), gap)
                  && AcquireWithin(Final(cfg, s0, Front(run)), run[|run| - 1], gap))
  }

  /** A legal run to that state, with no gap longer than that. */
  ghost predicate Reaches(cfg: Settings, s0: State, run: seq<Event>, s: State, gap: int) {
    FromStart(s0) && Legal(cfg, s0, run) && Final(cfg, s0, run) == s && GapsWithin(cfg, s0, run, gap)
  }

  /** One more event. */
  lemma Then(cfg: Settings, s0: State, run: seq<Event>, s: State, gap: int, e: Event)
    returns (longer: seq<Event>, t: State)
    requires Reaches(cfg, s0, run, s, gap) && Enabled(cfg, s, e) && AcquireWithin(s, e, gap)
    ensures Reaches(cfg, s0, longer, t, gap) && t == Apply(cfg, s, e) && longer == run + [e]
  {
    hide Enabled, Apply;
    longer, t := run + [e], Apply(cfg, s, e);
    assert Front(longer) == run;
  }

  lemma {:induction false} SlackIsTimely(cfg: Settings, s0: State, run: seq<Event>)
    requires Legal(cfg, s0, run) && GapsWithin(cfg, s0, run, Slack(cfg))
    ensures TimelyRun(cfg, s0, run)
    decreases |run|
  {
    if run != [] { SlackIsTimely(cfg, s0, Front(run)); }
  }

  /** Settings under which a frame can be submitted and read at once. */
  predicate Usable(cfg: Settings) {
    cfg.frameTtlSeconds > 0 && cfg.sessionTtlMs >= 0 && cfg.onceTtlMs >= cfg.frameTtlSeconds * 1000
  }

  const IMAGE: Media := []

  const EMPTY: Trail := Trail(0, 0, 0, None, [], [], [], [])

  function Start(): State {
    Initial(0, map[], map[0 := 18])
  }

  /** A frame was put at time 0 and its job queued; nothing else has happened. */
  predicate Queued(cfg: Settings, s: State) {
    && s.now == 0 && s.attempts == map[] && s.once == map[] && s.holders == map[] && s.documentSessions == map[]
    && s.tokens == {0} && s.requests.Keys == {0} && s.requiredAge == map[0 := 18]
    && s.jobs == map[Job(0, FacePhase) := 0] && s.trails == map[0 := EMPTY]
    && FrameRef(0) in s.store && s.store[FrameRef(0)].expiresAtMs == cfg.frameTtlSeconds * 1000
  }

  function Counted(pc: Quota.Pc): Quota.Call {
    Quota.Call(Quota.Key(0, Calendar.MonthAt(0)), Quota.MonthlyQuota(Quota.Free), 0, pc)
  }

  lemma Count(cfg: Settings, gap: int) returns (run: seq<Event>, s: State)
    ensures Reaches(cfg, Start(), run, s, gap) && s == Start().(quota := s.quota)
    ensures s.quota.calls == map[0 := Counted(Quota.Counted(1))]
  {
    hide Calendar.MonthAt;
    run, s := [], Start();
    run, s := Then(cfg, Start(), run, s, gap, QuotaStep(Quota.Begin(0, 0, Quota.Free)));
    run, s := Then(cfg, Start(), run, s, gap, QuotaStep(Quota.Count(0)));
  }

  /** A won quota call. */
  lemma Pay(cfg: Settings, gap: int) returns (run: seq<Event>, s: State)
    ensures Reaches(cfg, Start(), run, s, gap) && s == Start().(quota := s.quota)
    ensures s.quota.calls == map[0 := Counted(Quota.Won(1))]
  {
    hide Calendar.MonthAt;
    run, s := Count(cfg, gap);
    hide Reaches;
    run, s := Then(cfg, Start(), run, s, gap, QuotaStep(Quota.Arm(0)));
    run, s := Then(cfg, Start(), run, s, gap, QuotaStep(Quota.Finish(0)));
  }

  /** The session bought, its token presented and a transaction opened. */
  lemma Open(cfg: Settings, gap: int) returns (run: seq<Event>, s: State)
    requires Usable(cfg)
    ensures Reaches(cfg, Start(), run, s, gap)
    ensures s == Start().(quota := s.quota, sessions := s.sessions, tokens := {0}, payments := s.payments,
                          consents := s.consents, consumed := s.consumed, requests := map[0 := Admitted(0, 0)],
                              trails := map[0 := EMPTY])
  {
    run, s := Pay(cfg, gap);
    hide Reaches;
    assert !Text.Blank("1"[0]);
    run, s := Then(cfg, Start(), run, s, gap, OpenSession(0, 0, "user", "1"));
    run, s := Then(cfg, Start(), run, s, gap, Http(0, TakeSession(0)));
    run, s := Then(cfg, Start(), run, s, gap, Http(0, Admit(0)));
  }

  lemma Put(cfg: Settings, gap: int) returns (run: seq<Event>, s: State)
    requires Usable(cfg)
    ensures Reaches(cfg, Start(), run, s, gap)
    ensures s == Start().(quota := s.quota, sessions := s.sessions, tokens := {0}, payments := s.payments,
                          consents := s.consents, consumed := s.consumed, requests := map[0 := Stored(0, 0)],
                              trails := map[0 := EMPTY],
                          store := s.store, puts := s.puts)
    ensures FrameRef(0) in s.store && s.store[FrameRef(0)].expiresAtMs == cfg.frameTtlSeconds * 1000
  {
    run, s := Open(cfg, gap);
    hide Reaches;
    run, s := Then(cfg, Start(), run, s, gap, Http(0, PutFrame(IMAGE)));
  }

  /** A frame submitted with the session token that the quota call bought. */
  lemma Submit(cfg: Settings, gap: int) returns (run: seq<Event>, s: State)
    requires Usable(cfg)
    ensures Reaches(cfg, Start(), run, s, gap) && Queued(cfg, s)
  {
    run, s := Put(cfg, gap);
    hide Reaches;
    run, s := Then(cfg, Start(), run, s, gap, Http(0, EnqueueFace));
  }

  /** Attempt a has taken the once-key at time 0. */
  predicate FirstHolds(cfg: Settings, s: State, a: AttemptId) {
    && s.now == 0 && s.attempts == map[a := Attempt(Job(0, FacePhase), Scoping)]
    && s.once == map[Job(0, FacePhase) := Redis.Cell(1, Some(cfg.onceTtlMs))]
    && s.holders == map[Job(0, FacePhase) := [Hold(a, 0)]]
    && s.documentSessions == map[] && s.tokens == {0} && s.requests.Keys == {0} && s.requiredAge == map[0 := 18]
    && s.jobs == map[Job(0, FacePhase) := 0] && s.trails == map[0 := EMPTY]
    && FrameRef(0) in s.store && s.store[FrameRef(0)].expiresAtMs == cfg.frameTtlSeconds * 1000
  }

  lemma Read(cfg: Settings, gap: int) returns (run: seq<Event>, s: State)
    requires Usable(cfg)
    ensures Reaches(cfg, Start(), run, s, gap)
    ensures Queued(cfg, s.(attempts := map[])) && s.attempts == map[0 := Attempt(Job(0, FacePhase), Acquiring(0))]
  {
    run, s := Submit(cfg, gap);
    hide Reaches;
    run, s := Then(cfg, Start(), run, s, gap, Work(0, WorkEvent.Start(Job(0, FacePhase))));
    assert s.attempts == map[0 := Attempt(Job(0, FacePhase), Getting)];
    run, s := Then(cfg, Start(), run, s, gap, Work(0, GetMedia));
    assert s.attempts == map[0 := Attempt(Job(0, FacePhase), Acquiring(0))];
  }

  lemma FirstAcquires(cfg: Settings, s: State)
    requires Queued(cfg, s.(attempts := map[])) && s.attempts == map[0 := Attempt(Job(0, FacePhase), Acquiring(0))]
    ensures FirstHolds(cfg, DoAcquire(cfg, s, 0), 0)
  {
    var t := DoAcquire(cfg, s, 0);
    assert [] + [Hold(0, 0)] == [Hold(0, 0)];
    assert t.holders == map[Job(0, FacePhase) := [Hold(0, 0)]];
    assert t.attempts == map[0 := Attempt(Job(0, FacePhase), Scoping)];
  }

  lemma TakeKey(cfg: Settings, gap: int) returns (run: seq<Event>, s: State)
    requires Usable(cfg) && gap >= 0
    ensures Reaches(cfg, Start(), run, s, gap) && FirstHolds(cfg, s, 0)
  {
    run, s := Read(cfg, gap);
    FirstAcquires(cfg, s);
    hide Reaches, DoAcquire, FirstHolds;
    run, s := Then(cfg, Start(), run, s, gap, Work(0, Acquire));
  }

  /** The first attempt hangs; a second one reads the frame at its last moment. */
  lemma ReadAgain(cfg: Settings, gap: int) returns (run: seq<Event>, s: State)
    requires Usable(cfg) && gap >= 0
    ensures Reaches(cfg, Start(), run, s, gap)
    ensures s.now == cfg.frameTtlSeconds * 1000 - 1
              && s.once == map[Job(0, FacePhase) := Redis.Cell(1, Some(cfg.onceTtlMs))]
    ensures s.holders == map[Job(0, FacePhase) := [Hold(0, 0)]]
    ensures s.attempts == map[0 := Attempt(Job(0, FacePhase), Scoping),
              1 := Attempt(Job(0, FacePhase), Acquiring(s.now))]
    ensures s.jobs == map[Job(0, FacePhase) := 0] && s.trails == map[0 := EMPTY]
  {
    run, s := TakeKey(cfg, gap);
    hide Reaches;
    run, s := Then(cfg, Start(), run, s, gap, Tick(cfg.frameTtlSeconds * 1000 - 1));
    run, s := Then(cfg, Start(), run, s, gap, Work(1, WorkEvent.Start(Job(0, FacePhase))));
    assert DoGet(s, 1).attempts[1] == Attempt(Job(0, FacePhase), Acquiring(s.now));
    assert Apply(cfg, s, Work(1, GetMedia)) == DoGet(s, 1);
    run, s := Then(cfg, Start(), run, s, gap, Work(1, GetMedia));
  }

  lemma SecondAcquires(cfg: Settings, s: State)
    requires s.now == cfg.onceTtlMs && s.once == map[Job(0, FacePhase) := Redis.Cell(1, Some(cfg.onceTtlMs))]
    requires s.holders == map[Job(0, FacePhase) := [Hold(0, 0)]] && 0 in s.attempts && s.attempts[0].pc.Scoping?
    requires 1 in s.attempts && s.attempts[1].job == Job(0, FacePhase)
    ensures var t := DoAcquire(cfg, s, 1);
            && |HoldersOf(t, Job(0, FacePhase))| == 2
            && 0 in t.attempts && t.attempts[0].pc.Scoping? && 1 in t.attempts && t.attempts[1].pc.Scoping?
  {
  }

  /** The bound is tight: let one gap be a millisecond longer, and one transaction is verified
      twice. The second attempt acquires when the key runs out. */
  lemma DoubleVerification(cfg: Settings) returns (run: seq<Event>)
    requires Usable(cfg)
    ensures Legal(cfg, Start(), run) && GapsWithin(cfg, Start(), run, Slack(cfg) + 1)
    ensures |HoldersOf(Final(cfg, Start(), run), Job(0, FacePhase))| == 2
    ensures forall a | a in {0, 1} :: a in Final(cfg, Start(), run).attempts
                                     && Final(cfg, Start(), run).attempts[a].pc.Scoping?
  {
    var s;
    var gap := Slack(cfg) + 1;
    run, s := ReadAgain(cfg, gap);
    run, s := Then(cfg, Start(), run, s, gap, Tick(gap));
    SecondAcquires(cfg, s);
    hide DoAcquire, HoldersOf;
    run, s := Then(cfg, Start(), run, s, gap, Work(1, Acquire));
  }

  /** A timely run that ends in a lost transaction: the only holder crashes before its audit row. */
  lemma LostTransaction(cfg: Settings) returns (run: seq<Event>)
    requires Usable(cfg)
    ensures GoodRun(cfg, Start(), run) && Lost(Final(cfg, Start(), run), 0)
  {
    var s;
    run, s := TakeKey(cfg, Slack(cfg));
    run, s := Then(cfg, Start(), run, s, Slack(cfg), Work(0, Crash));
    SlackIsTimely(cfg, Start(), run);
  }

  // ----- a webhook after its time -----

  /** Settings with a grey zone of whole years and at least one retry. */
  predicate Retries(cfg: Settings) {
    Usable(cfg) && cfg.retries >= 1 && cfg.decision.margin > 0.0 && IntColumn(cfg.decision.margin)
  }

  function GreyResult(cfg: Settings): AgeResult {
    AgeResult(18.0, cfg.decision.livenessThreshold)
  }

  function Grey(cfg: Settings): Verdict {
    Verdict(DocumentoRequerido, ByFace(GreyResult(cfg), FaceConfig(cfg.decision, 18)))
  }

  lemma GreyIsGrey(cfg: Settings)
    requires Retries(cfg)
    ensures DecideVerification(GreyResult(cfg), FaceConfig(cfg.decision, 18)) == DocumentoRequerido
              && Storable(Grey(cfg))
  {
    assert IntColumn(18.0);
  }

  /** The face check as it stands, and the trail it has left. */
  predicate FaceAt(s: State, pc: Pc, t: Trail) {
    && s.now == 0 && s.attempts.Keys == {0} && s.attempts[0] == Attempt(Job(0, FacePhase), pc)
    && s.trails.Keys == {0} && s.trails[0] == t && s.requests.Keys == {0}
    && 0 in s.requiredAge && s.requiredAge[0] == 18
    && s.jobs.Keys == {Job(0, FacePhase)} && s.jobs[Job(0, FacePhase)] == 0
    && Job(0, DocumentPhase) !in s.once && Job(0, DocumentPhase) !in s.holders
  }

  lemma TenantKnown(cfg: Settings, gap: int) returns (run: seq<Event>, s: State)
    requires Retries(cfg) && gap >= 0
    ensures Reaches(cfg, Start(), run, s, gap) && FaceAt(s, Analyzing(FaceConfig(cfg.decision, 18)), EMPTY)
    ensures s.tokens == {0} && s.documentSessions == map[]
  {
    run, s := TakeKey(cfg, gap);
    hide Reaches, FaceConfig;
    run, s := Then(cfg, Start(), run, s, gap, Work(0, ReadTenant));
  }

  lemma GreyAnalyzed(cfg: Settings, gap: int) returns (run: seq<Event>, s: State)
    requires Retries(cfg) && gap >= 0
    ensures Reaches(cfg, Start(), run, s, gap) && FaceAt(s, Issuing(Grey(cfg)), EMPTY)
    ensures s.tokens == {0} && s.documentSessions == map[]
  {
    run, s := TenantKnown(cfg, gap);
    GreyIsGrey(cfg);
    hide Reaches, FaceConfig, DecideVerification, Storable;
    run, s := Then(cfg, Start(), run, s, gap, Work(0, Analyze(GreyResult(cfg))));
  }

  lemma FaceIsAt(s: State, pc: Pc, t: Trail)
    requires FaceAt(s, pc, t)
    ensures At(s, 0) && s.attempts[0] == Attempt(Job(0, FacePhase), pc) && s.trails[0] == t
    ensures s.jobs[Job(0, FacePhase)] == 0 && s.now == 0
  {
  }

  /** A step that rewrites the attempt and the trail and nothing else that FaceAt looks at. */
  lemma NowAt(s: State, u: State, pc: Pc, t: Trail, next: Pc, v: Trail)
    requires FaceAt(s, pc, t) && u.attempts == s.attempts[0 := Attempt(Job(0, FacePhase), next)]
    requires u.trails == s.trails[0 := v] && u.now == s.now && u.requests == s.requests
    requires u.requiredAge == s.requiredAge && u.jobs == s.jobs && u.once == s.once && u.holders == s.holders
    ensures FaceAt(u, next, v)
  {
  }

  lemma IssueAt(s: State, v: Verdict, t: Trail)
    requires FaceAt(s, Issuing(v), t) && s.documentSessions == map[]
    ensures At(s, 0) && s.attempts[0].pc == Issuing(v)
    ensures FaceAt(DoIssue(s, 0, 1), Auditing(v, Some(1)), t.(issued := t.issued + [1]))
    ensures DoIssue(s, 0, 1).documentSessions == map[1 := DocumentSession(0, 0, 0)]
  {
    FaceIsAt(s, Issuing(v), t);
    NowAt(s, DoIssue(s, 0, 1), Issuing(v), t, Auditing(v, Some(1)), t.(issued := t.issued + [1]));
    hide FaceAt;
  }

  lemma AuditAt(s: State, v: Verdict, k: Option<Token>, t: Trail)
    requires FaceAt(s, Auditing(v, k), t)
    ensures At(s, 0) && s.attempts[0].pc == Auditing(v, k)
    ensures FaceAt(DoAudit(s, 0), Recording(v, k), t.(audits := t.audits + [v]))
    ensures DoAudit(s, 0).documentSessions == s.documentSessions
  {
    FaceIsAt(s, Auditing(v, k), t);
    hide FaceAt;
    NowAt(s, DoAudit(s, 0), Auditing(v, k), t, Recording(v, k), t.(audits := t.audits + [v]));
  }

  lemma RecordAt(s: State, v: Verdict, k: Option<Token>, t: Trail)
    requires FaceAt(s, Recording(v, k), t)
    ensures At(s, 0) && s.attempts[0].pc == Recording(v, k)
    ensures FaceAt(DoRecord(s, 0), Dispatching(v, k, 0), t.(records := t.records + [v]))
    ensures DoRecord(s, 0).documentSessions == s.documentSessions
  {
    FaceIsAt(s, Recording(v, k), t);
    hide FaceAt;
    NowAt(s, DoRecord(s, 0), Recording(v, k), t, Dispatching(v, k, 0), t.(records := t.records + [v]));
  }

  lemma RefusedAt(cfg: Settings, s: State, v: Verdict, k: Option<Token>, t: Trail)
    requires FaceAt(s, Dispatching(v, k, 0), t) && cfg.retries >= 1
    ensures At(s, 0) && s.attempts[0].pc == Dispatching(v, k, 0)
    ensures var p := Payload(0, v.status, IsOver18(v.status), k);
            FaceAt(DoSend(cfg, s, 0, false), Dispatching(v, k, 1), t.(sent := t.sent + [p]))
    ensures DoSend(cfg, s, 0, false).documentSessions == s.documentSessions
  {
    FaceIsAt(s, Dispatching(v, k, 0), t);
    hide FaceAt;
    NowAt(s, DoSend(cfg, s, 0, false), Dispatching(v, k, 0), t, Dispatching(v, k, 1),
          t.(sent := t.sent + [Payload(0, v.status, IsOver18(v.status), k)]));
  }

  /** The four writes, as events. */
  lemma WritesAre(cfg: Settings, s: State)
    requires At(s, 0)
    ensures s.attempts[0].pc.Issuing? && 1 !in s.tokens ==>
              Enabled(cfg, s, Work(0, IssueToken(1))) && Apply(cfg, s, Work(0, IssueToken(1))) == DoIssue(s, 0, 1)
    ensures s.attempts[0].pc.Auditing? ==>
              Enabled(cfg, s, Work(0, WriteAudit)) && Apply(cfg, s, Work(0, WriteAudit)) == DoAudit(s, 0)
    ensures s.attempts[0].pc.Recording? && Storable(s.attempts[0].pc.v) ==>
              Enabled(cfg, s, Work(0, WriteRecord)) && Apply(cfg, s, Work(0, WriteRecord)) == DoRecord(s, 0)
    ensures s.attempts[0].pc.Dispatching? && s.attempts[0].pc.tries <= cfg.retries ==>
              forall ok :: Enabled(cfg, s, Work(0, Send(ok)))
                  && Apply(cfg, s, Work(0, Send(ok))) == DoSend(cfg, s, 0, ok)
  {
    hide Storable;
  }

  function SentOnce(cfg: Settings): Trail {
    EMPTY.(issued := [1], audits := [Grey(cfg)], records := [Grey(cfg)],
           sent := [Payload(0, DocumentoRequerido, false, Some(1))])
  }

  lemma GreyAudited(cfg: Settings, gap: int) returns (run: seq<Event>, s: State)
    requires Retries(cfg) && gap >= 0
    ensures Reaches(cfg, Start(), run, s, gap)
    ensures FaceAt(s, Recording(Grey(cfg), Some(1)), SentOnce(cfg).(records := [], sent := []))
    ensures s.documentSessions == map[1 := DocumentSession(0, 0, 0)]
  {
    run, s := GreyAnalyzed(cfg, gap);
    hide Reaches, FaceAt, Enabled, Apply, DoIssue, DoAudit, Grey;
    var v, t := Grey(cfg), EMPTY;
    IssueAt(s, v, t);
    WritesAre(cfg, s);
    run, s := Then(cfg, Start(), run, s, gap, Work(0, IssueToken(1)));
    assert t.issued + [1] == [1] && t.audits + [v] == [v];
    t := t.(issued := [1]);
    AuditAt(s, v, Some(1), t);
    WritesAre(cfg, s);
    run, s := Then(cfg, Start(), run, s, gap, Work(0, WriteAudit));
  }

  /** The face check has sent a document token once, was refused, and will try again. */
  lemma GreySent(cfg: Settings, gap: int) returns (run: seq<Event>, s: State)
    requires Retries(cfg) && gap >= 0
    ensures Reaches(cfg, Start(), run, s, gap) && FaceAt(s, Dispatching(Grey(cfg), Some(1), 1), SentOnce(cfg))
    ensures s.documentSessions == map[1 := DocumentSession(0, 0, 0)]
  {
    GreyIsGrey(cfg);
    assert Grey(cfg).status == DocumentoRequerido && cfg.retries >= 1;
    run, s := GreyAudited(cfg, gap);
    hide Reaches, FaceAt, Enabled, Apply, DoRecord, DoSend, Grey, Storable;
    var v, t := Grey(cfg), SentOnce(cfg).(records := [], sent := []);
    RecordAt(s, v, Some(1), t);
    WritesAre(cfg, s);
    run, s := Then(cfg, Start(), run, s, gap, Work(0, WriteRecord));
    assert t.records + [v] == [v];
    t := t.(records := [v]);
    RefusedAt(cfg, s, v, Some(1), t);
    WritesAre(cfg, s);
    run, s := Then(cfg, Start(), run, s, gap, Work(0, Send(false)));
    var p := Payload(0, DocumentoRequerido, false, Some(1));
    assert t.sent + [p] == [p];
  }

  // ----- the document phase overtakes it -----

  /** Both images are stored and their job is queued, while the face check waits to send again. */
  predicate BothAt(cfg: Settings, s: State, t: Trail) {
    && s.now == 0 && 0 in s.attempts && s.attempts[0] == Attempt(Job(0, FacePhase), Dispatching(Grey(cfg), Some(1), 1))
    && 0 in s.trails && s.trails[0] == t && 0 in s.requiredAge && s.requiredAge[0] == 18
    && Job(0, FacePhase) in s.jobs && Job(0, DocumentPhase) in s.jobs && s.jobs[Job(0, DocumentPhase)] == 0
    && Job(0, DocumentPhase) !in s.once && Job(0, DocumentPhase) !in s.holders
    && DocumentRef(0) in s.store && s.store[DocumentRef(0)].expiresAtMs > 0
    && SelfieRef(0) in s.store && s.store[SelfieRef(0)].expiresAtMs > 0
  }

  lemma TokenTaken(cfg: Settings, gap: int) returns (run: seq<Event>, s: State)
    requires Retries(cfg) && gap >= 0
    ensures Reaches(cfg, Start(), run, s, gap)
    ensures FaceAt(s.(requests := map[0 := Closed]), Dispatching(Grey(cfg), Some(1), 1),
                   SentOnce(cfg).(documentRequest := Some(1)))
    ensures 1 in s.requests && s.requests[1] == TookDocumentSession(0, 0, 0)
  {
    run, s := GreySent(cfg, gap);
    hide Reaches, Grey, Enabled, Apply;
    TakeAt(cfg, s);
    run, s := Then(cfg, Start(), run, s, gap, Http(1, TakeDocumentSession(1)));
  }

  lemma TakeAt(cfg: Settings, s: State)
    requires FaceAt(s, Dispatching(Grey(cfg), Some(1), 1), SentOnce(cfg))
    requires s.documentSessions == map[1 := DocumentSession(0, 0, 0)]
    ensures Enabled(cfg, s, Http(1, TakeDocumentSession(1)))
    ensures var t := Apply(cfg, s, Http(1, TakeDocumentSession(1)));
            && FaceAt(t.(requests := map[0 := Closed]), Dispatching(Grey(cfg), Some(1), 1),
                      SentOnce(cfg).(documentRequest := Some(1)))
            && 1 in t.requests && t.requests[1] == TookDocumentSession(0, 0, 0)
  {
    hide Grey;
    TokenShown(s, 0);
    assert Apply(cfg, s, Http(1, TakeDocumentSession(1))) == DoTakeDocumentSession(s, 1, 1);
    hide SentOnce, FaceAt, Revealed;
    TakeLeaves(s, Dispatching(Grey(cfg), Some(1), 1), SentOnce(cfg));
  }

  lemma TokenShown(s: State, i: nat)
    requires 0 in s.trails && i < |s.trails[0].sent| && s.trails[0].sent[i].token == Some(1)
    ensures Revealed(s, 0, 1)
  {
  }

  lemma TakeLeaves(s: State, pc: Pc, t: Trail)
    requires FaceAt(s, pc, t) && s.documentSessions == map[1 := DocumentSession(0, 0, 0)]
    ensures var u := DoTakeDocumentSession(s, 1, 1);
            && FaceAt(u.(requests := map[0 := Closed]), pc, t.(documentRequest := Some(1)))
            && 1 in u.requests && u.requests[1] == TookDocumentSession(0, 0, 0)
  {
  }

  lemma DocumentPut(cfg: Settings, gap: int) returns (run: seq<Event>, s: State)
    requires Retries(cfg) && gap >= 0
    ensures Reaches(cfg, Start(), run, s, gap)
    ensures FaceAt(s.(requests := map[0 := Closed]), Dispatching(Grey(cfg), Some(1), 1),
                   SentOnce(cfg).(documentRequest := Some(1)))
    ensures 1 in s.requests && s.requests[1] == DocumentStored(0, 0)
    ensures DocumentRef(0) in s.store && s.store[DocumentRef(0)].expiresAtMs > 0
  {
    run, s := TokenTaken(cfg, gap);
    hide Reaches, Grey, SentOnce;
    run, s := Then(cfg, Start(), run, s, gap, Http(1, AdmitDocument));
    run, s := Then(cfg, Start(), run, s, gap, Http(1, PutDocument(IMAGE)));
  }

  lemma SelfiePut(cfg: Settings, gap: int) returns (run: seq<Event>, s: State)
    requires Retries(cfg) && gap >= 0
    ensures Reaches(cfg, Start(), run, s, gap)
    ensures FaceAt(s.(requests := map[0 := Closed]), Dispatching(Grey(cfg), Some(1), 1),
                   SentOnce(cfg).(documentRequest := Some(1)))
    ensures 1 in s.requests && s.requests[1] == BothStored(0, 0)
    ensures DocumentRef(0) in s.store && s.store[DocumentRef(0)].expiresAtMs > 0
    ensures SelfieRef(0) in s.store && s.store[SelfieRef(0)].expiresAtMs > 0
  {
    run, s := DocumentPut(cfg, gap);
    hide Reaches, Grey, SentOnce, Enabled, Apply;
    SelfieAt(cfg, s, SentOnce(cfg).(documentRequest := Some(1)));
    run, s := Then(cfg, Start(), run, s, gap, Http(1, PutSelfie(IMAGE)));
  }

  lemma SelfieAt(cfg: Settings, s: State, t: Trail)
    requires Retries(cfg) && FaceAt(s.(requests := map[0 := Closed]), Dispatching(Grey(cfg), Some(1), 1), t)
    requires 1 in s.requests && s.requests[1] == DocumentStored(0, 0)
    requires DocumentRef(0) in s.store && s.store[DocumentRef(0)].expiresAtMs > 0
    ensures Enabled(cfg, s, Http(1, PutSelfie(IMAGE)))
    ensures var u := Apply(cfg, s, Http(1, PutSelfie(IMAGE)));
            && FaceAt(u.(requests := map[0 := Closed]), Dispatching(Grey(cfg), Some(1), 1), t)
            && 1 in u.requests && u.requests[1] == BothStored(0, 0)
            && DocumentRef(0) in u.store && u.store[DocumentRef(0)].expiresAtMs > 0
            && SelfieRef(0) in u.store && u.store[SelfieRef(0)].expiresAtMs > 0
  {
    hide Grey;
    assert Apply(cfg, s, Http(1, PutSelfie(IMAGE))) == DoPutSelfie(cfg, s, 1, IMAGE);
  }

  lemma JobQueued(cfg: Settings, s: State, t: Trail)
    requires FaceAt(s.(requests := map[0 := Closed]), Dispatching(Grey(cfg), Some(1), 1), t)
    requires 1 in s.requests && s.requests[1] == BothStored(0, 0)
    requires DocumentRef(0) in s.store && s.store[DocumentRef(0)].expiresAtMs > 0
    requires SelfieRef(0) in s.store && s.store[SelfieRef(0)].expiresAtMs > 0
    ensures Enabled(cfg, s, Http(1, EnqueueDocument))
    ensures Apply(cfg, s, Http(1, EnqueueDocument)) == DoEnqueueDocument(s, 1)
    ensures BothAt(cfg, DoEnqueueDocument(s, 1), t) && DoEnqueueDocument(s, 1).attempts.Keys == {0}
  {
    hide Grey;
  }

  lemma ImagesSubmitted(cfg: Settings, gap: int) returns (run: seq<Event>, s: State)
    requires Retries(cfg) && gap >= 0
    ensures Reaches(cfg, Start(), run, s, gap) && BothAt(cfg, s, SentOnce(cfg).(documentRequest := Some(1)))
    ensures s.attempts.Keys == {0}
  {
    run, s := SelfiePut(cfg, gap);
    JobQueued(cfg, s, SentOnce(cfg).(documentRequest := Some(1)));
    hide Reaches, Grey, SentOnce, DoEnqueueDocument, Enabled, Apply, BothAt, FaceAt;
    run, s := Then(cfg, Start(), run, s, gap, Http(1, EnqueueDocument));
  }

  /** Two different faces. */
  const REFUSED: DocumentCheck := DocumentCheck(NoBirthDate, 0.0, false)

  /** The same face, and a birth date that is text but no date. */
  function NoDate(cfg: Settings): DocumentCheck {
    DocumentCheck(NotADate, cfg.minFaceMatch, true)
  }

  /** The verdict on a document at time 0. */
  function Judgement(cfg: Settings, check: DocumentCheck): Verdict {
    var cutoff := DocumentCutoff(cfg.decision, Some(18));
    Verdict(DecideDocument(AgeFromDocument(check.birth, 0), check, cutoff, cfg.minFaceMatch),
            ByDocument(check, 0, cutoff, cfg.minFaceMatch))
  }

  /** The document check stands at pc. */
  predicate DocumentAt(cfg: Settings, s: State, pc: Pc, t: Trail) {
    && s.now == 0 && 0 in s.attempts && s.attempts[0] == Attempt(Job(0, FacePhase), Dispatching(Grey(cfg), Some(1), 1))
    && 1 in s.attempts && s.attempts[1] == Attempt(Job(0, DocumentPhase), pc)
    && 0 in s.trails && s.trails[0] == t && 0 in s.requiredAge && s.requiredAge[0] == 18
    && Job(0, FacePhase) in s.jobs && Job(0, DocumentPhase) in s.jobs && s.jobs[Job(0, DocumentPhase)] == 0
  }

  /** A document job is picked up, and its first image found. */
  lemma PickedUp(cfg: Settings, s: State, t: Trail)
    requires BothAt(cfg, s, t) && s.attempts.Keys == {0}
    ensures Enabled(cfg, s, Work(1, WorkEvent.Start(Job(0, DocumentPhase))))
    ensures Apply(cfg, s, Work(1, WorkEvent.Start(Job(0, DocumentPhase)))) == DoStart(s, 1, Job(0, DocumentPhase))
    ensures var u := DoStart(s, 1, Job(0, DocumentPhase));
            BothAt(cfg, u, t) && DocumentAt(cfg, u, Getting, t)
  {
    hide Grey;
  }

  lemma FirstImageFound(cfg: Settings, s: State, t: Trail)
    requires BothAt(cfg, s, t) && DocumentAt(cfg, s, Getting, t)
    ensures Enabled(cfg, s, Work(1, GetMedia)) && Apply(cfg, s, Work(1, GetMedia)) == DoGet(s, 1)
    ensures BothAt(cfg, DoGet(s, 1), t) && DocumentAt(cfg, DoGet(s, 1), GettingSelfie(true), t)
  {
    hide Grey;
  }

  lemma DocumentRead(cfg: Settings, gap: int) returns (run: seq<Event>, s: State)
    requires Retries(cfg) && gap >= 0
    ensures Reaches(cfg, Start(), run, s, gap)
    ensures BothAt(cfg, s, SentOnce(cfg).(documentRequest := Some(1)))
    ensures DocumentAt(cfg, s, GettingSelfie(true), SentOnce(cfg).(documentRequest := Some(1)))
  {
    run, s := ImagesSubmitted(cfg, gap);
    hide Reaches, BothAt, DocumentAt, Enabled, Apply, DoStart, DoGet;
    PickedUp(cfg, s, SentOnce(cfg).(documentRequest := Some(1)));
    run, s := Then(cfg, Start(), run, s, gap, Work(1, WorkEvent.Start(Job(0, DocumentPhase))));
    FirstImageFound(cfg, s, SentOnce(cfg).(documentRequest := Some(1)));
    run, s := Then(cfg, Start(), run, s, gap, Work(1, GetMedia));
  }

  lemma ImagesRead(cfg: Settings, gap: int) returns (run: seq<Event>, s: State)
    requires Retries(cfg) && gap >= 0
    ensures Reaches(cfg, Start(), run, s, gap)
    ensures DocumentAt(cfg, s, Acquiring(0), SentOnce(cfg).(documentRequest := Some(1)))
    ensures Job(0, DocumentPhase) !in s.once
  {
    run, s := DocumentRead(cfg, gap);
    hide Reaches, Grey, SentOnce;
    run, s := Then(cfg, Start(), run, s, gap, Work(1, GetSelfie));
  }

  lemma DocumentHolds(cfg: Settings, gap: int) returns (run: seq<Event>, s: State)
    requires Retries(cfg) && gap >= 0
    ensures Reaches(cfg, Start(), run, s, gap)
    ensures DocumentAt(cfg, s, Verifying, SentOnce(cfg).(documentRequest := Some(1)))
  {
    run, s := ImagesRead(cfg, gap);
    hide Reaches, Grey, SentOnce;
    run, s := Then(cfg, Start(), run, s, gap, Work(1, Acquire));
  }

  lemma Judged(cfg: Settings, gap: int, check: DocumentCheck) returns (run: seq<Event>, s: State)
    requires Retries(cfg) && gap >= 0
    ensures Reaches(cfg, Start(), run, s, gap)
    ensures DocumentAt(cfg, s, Auditing(Judgement(cfg, check), None), SentOnce(cfg).(documentRequest := Some(1)))
  {
    run, s := DocumentHolds(cfg, gap);
    hide Reaches, Grey, SentOnce, DecideDocument, AgeFromDocument;
    run, s := Then(cfg, Start(), run, s, gap, Work(1, VerifyDocument(check)));
    run, s := Then(cfg, Start(), run, s, gap, Work(1, ReadTenant));
  }

  lemma AuditNow(cfg: Settings, s: State, v: Verdict, t: Trail)
    requires DocumentAt(cfg, s, Auditing(v, None), t)
    ensures Enabled(cfg, s, Work(1, WriteAudit)) && Apply(cfg, s, Work(1, WriteAudit)) == DoAudit(s, 1)
    ensures var u := DoAudit(s, 1);
            && DocumentAt(cfg, u, Recording(v, None), t.(audits := t.audits + [v])) && At(u, 0) && At(u, 1)
            && 0 in u.audit && u.audit[0].verdict == v
  {
    hide Grey;
  }

  lemma Written(cfg: Settings, gap: int, check: DocumentCheck) returns (run: seq<Event>, s: State)
    requires Retries(cfg) && gap >= 0
    ensures Reaches(cfg, Start(), run, s, gap) && At(s, 0) && At(s, 1)
    ensures var t := SentOnce(cfg).(documentRequest := Some(1),
              audits := SentOnce(cfg).audits + [Judgement(cfg, check)]);
            DocumentAt(cfg, s, Recording(Judgement(cfg, check), None), t)
    ensures 0 in s.audit && s.audit[0].verdict == Judgement(cfg, check)
  {
    run, s := Judged(cfg, gap, check);
    hide Reaches, Grey, SentOnce, Judgement, DocumentAt, Enabled, Apply, DoAudit;
    AuditNow(cfg, s, Judgement(cfg, check), SentOnce(cfg).(documentRequest := Some(1)));
    run, s := Then(cfg, Start(), run, s, gap, Work(1, WriteAudit));
  }

  lemma SentAgain(cfg: Settings, s: State)
    requires At(s, 0) && s.attempts[0].job.tx == 0 && s.attempts[0].pc.Dispatching?
    requires s.attempts[0].pc.v.status == DocumentoRequerido
    ensures var t := DoSend(cfg, s, 0, true);
            && t.audit == s.audit && 0 in t.trails && t.trails[0].sent != []
            && t.trails[0].sent[|t.trails[0].sent| - 1].status == DocumentoRequerido
  {
  }

  /** A timely run in which the last webhook says documento_requerido although the row has been
      reprovado since: the face check retries after the document check has decided. */
  lemma StaleWebhook(cfg: Settings) returns (run: seq<Event>)
    requires Retries(cfg)
    ensures GoodRun(cfg, Start(), run)
    ensures var s := Final(cfg, Start(), run);
            && 0 in s.audit && s.audit[0].verdict.status == Reprovado
            && 0 in s.trails && s.trails[0].sent != []
            && s.trails[0].sent[|s.trails[0].sent| - 1].status == DocumentoRequerido
  {
    var s;
    var gap := Slack(cfg);
    run, s := Written(cfg, gap, REFUSED);
    assert s.attempts[0].pc == Dispatching(Grey(cfg), Some(1), 1) && s.attempts[0].job.tx == 0;
    WritesAre(cfg, s);
    SentAgain(cfg, s);
    hide Enabled, Apply, DoSend, DocumentAt;
    run, s := Then(cfg, Start(), run, s, gap, Work(0, Send(true)));
    SlackIsTimely(cfg, Start(), run);
  }

  /** A timely run in which a text that is no date is approved: the audit row says aprovado, the write
      of the record throws, and record and webhook still say documento_requerido. */
  lemma ApprovedUnrecorded(cfg: Settings) returns (run: seq<Event>)
    requires Retries(cfg)
    ensures GoodRun(cfg, Start(), run)
    ensures var s := Final(cfg, Start(), run);
            && 0 in s.audit && s.audit[0].verdict.status == Aprovado
            && s.audit[0].verdict.basis.ByDocument? && s.audit[0].verdict.basis.check.birth.NotADate?
            && 0 in s.records && s.records[0].verdict.status == DocumentoRequerido
            && 0 in s.trails && (forall p | p in s.trails[0].sent :: p.status == DocumentoRequerido)
            && 1 in s.attempts && s.attempts[1] == Attempt(Job(0, DocumentPhase), Deleting)
  {
    var s;
    var gap := Slack(cfg);
    run, s := Written(cfg, gap, NoDate(cfg));
    ThrowNow(cfg, s);
    var t := s.trails[0];
    assert t.records == [Grey(cfg)] && t.sent == [Payload(0, DocumentoRequerido, false, Some(1))];
    hide Enabled, Apply, DocumentAt, Reaches;
    run, s := Then(cfg, Start(), run, s, gap, Work(1, Throw));
    ReachesGoodRun(cfg, run, s);
    RunTruth(cfg, Start(), run);
    RecordIsLast(s);
  }

  lemma ThrowNow(cfg: Settings, s: State)
    requires At(s, 1) && s.attempts[1].pc.Recording?
    ensures Enabled(cfg, s, Work(1, Throw)) && Apply(cfg, s, Work(1, Throw)) == Goto(s, 1, Deleting)
  {
  }

  lemma ReachesGoodRun(cfg: Settings, run: seq<Event>, s: State)
    requires Reaches(cfg, Start(), run, s, Slack(cfg))
    ensures GoodRun(cfg, Start(), run) && Final(cfg, Start(), run) == s
  {
    SlackIsTimely(cfg, Start(), run);
  }

  lemma RecordIsLast(s: State)
    requires Truthful(s) && 0 in s.trails && s.trails[0].records != []
    ensures 0 in s.records && s.records[0].verdict == s.trails[0].records[|s.trails[0].records| - 1]
  {
    assert RowsTrue(s, 0);
  }
}
