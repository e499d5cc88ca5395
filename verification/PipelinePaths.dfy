/** The order of the steps of every participant: where an attempt stands tells which steps it has
    taken, one by one. In every legal run. */
module PipelinePaths {
  import opened Wrappers
  import opened Decision
  import opened Pipeline
  import opened PipelineTheorems
  import opened PipelineAnyRun
  import opened PipelineSources
  import Quota
  import Redis

  // ----- the steps of one participant -----

  /** A run of a job processor, a request handler, or a call that draws on quota. */
  datatype Self = Worker(a: AttemptId) | Handler(r: RequestId) | QuotaCall(c: Quota.CallId)

  predicate ByOther(e: Event, me: Self) {
    match me
    case Worker(a) => !(e.Work? && e.a == a)
    case Handler(r) => !(e.Http? && e.r == r)
    case QuotaCall(c) => (e.QuotaStep? ==> e.q.ChangePlan? || e.q.c != c) && (e.OpenSession? ==> e.call != c)
  }

  /** The steps of the run that are its own. */
  function Own(run: seq<Event>, me: Self): seq<Event> {
    if run == [] then [] else Own(Front(run), me) + (if ByOther(run[|run| - 1], me) then [] else [run[|run| - 1]])
  }

  lemma OwnNext(run: seq<Event>, e: Event, me: Self)
    ensures Own(run + [e], me) == Own(run, me) + (if ByOther(e, me) then [] else [e])
  {
    assert Front(run + [e]) == run;
  }

  function Steps(a: AttemptId, ws: seq<WorkEvent>): seq<Event> {
    seq(|ws|, i requires 0 <= i < |ws| => Work(a, ws[i]))
  }

  function HttpSteps(r: RequestId, hs: seq<HttpEvent>): seq<Event> {
    seq(|hs|, i requires 0 <= i < |hs| => Http(r, hs[i]))
  }

  lemma StepsJoin(a: AttemptId, u: seq<WorkEvent>, v: seq<WorkEvent>)
    ensures Steps(a, u + v) == Steps(a, u) + Steps(a, v)
  {
  }

  // ----- the path to every point of a try block -----

  /** Up to the decision. A face check reads one image, then the tenant, then asks the provider;
      a document check reads both images, asks the verifier, then reads the tenant. */
  function ToVerdict(job: Job, b: Basis): seq<WorkEvent> {
    match b
    case ByFace(result, _) => [Start(job), GetMedia, Acquire, ReadTenant, Analyze(result)]
    case ByDocument(check, _, _, _) => [Start(job), GetMedia, GetSelfie, Acquire, VerifyDocument(check), ReadTenant]
  }

  /** Up to the audit row: a document token is drawn before any row is written. */
  function ToAudit(job: Job, v: Verdict, token: Option<Token>): seq<WorkEvent> {
    ToVerdict(job, v.basis) + if token.Some? then [IssueToken(token.value)] else []
  }

  function Refused(n: int): seq<WorkEvent> {
    if n <= 0 then [] else Refused(n - 1) + [Send(false)]
  }

  /** The steps of an attempt that stands there; none is told of one that has left the try block. */
  function Path(job: Job, pc: Pc): seq<WorkEvent> {
    match pc
    case Getting => [Start(job)]
    case GettingSelfie(_) => [Start(job), GetMedia]
    case Acquiring(_) => [Start(job), GetMedia] + if job.phase.FacePhase? then [] else [GetSelfie]
    case Scoping => [Start(job), GetMedia, Acquire]
    case Analyzing(_) => [Start(job), GetMedia, Acquire, ReadTenant]
    case Verifying => [Start(job), GetMedia, GetSelfie, Acquire]
    case Deciding(check, _) => [Start(job), GetMedia, GetSelfie, Acquire, VerifyDocument(check)]
    case Issuing(v) => ToVerdict(job, v.basis)
    case Auditing(v, token) => ToAudit(job, v, token)
    case Recording(v, token) => ToAudit(job, v, token) + [WriteAudit]
    case Dispatching(v, token, tries) => ToAudit(job, v, token) + [WriteAudit, WriteRecord] + Refused(tries)
    case _ => []
  }

  predicate Orderly(x: Attempt) {
    && (x.pc.Dispatching? ==> x.pc.tries >= 0)
    && (x.pc.GettingSelfie? ==> x.job.phase.DocumentPhase?)
  }

  /** From x to y is the next step on the path, if y is still inside the try block. */
  predicate NextOnPath(x: Attempt, w: WorkEvent, y: Attempt) {
    && y.job == x.job
    && (InTry(y.pc) ==> InTry(x.pc) && Orderly(y) && Path(y.job, y.pc) == Path(x.job, x.pc) + [w])
  }

  lemma PathStep(cfg: Settings, s: State, a: AttemptId, w: WorkEvent)
    requires WorkEnabled(cfg, s, a, w) && !w.Start? && Orderly(s.attempts[a])
    ensures var t := WorkApply(cfg, s, a, w); a in t.attempts && NextOnPath(s.attempts[a], w, t.attempts[a])
  {
    if WritesTrail(w) {
      WritePath(cfg, s, a, w);
    } else if w.GetMedia? || w.GetSelfie? || w.Acquire? {
      ReadPath(cfg, s, a, w);
    } else if w.ReadTenant? || w.Analyze? || w.VerifyDocument? {
      DecidePath(cfg, s, a, w);
    } else {
      LeavePath(cfg, s, a, w);
    }
    hide WorkApply, WorkEnabled;
  }

  lemma LeavePath(cfg: Settings, s: State, a: AttemptId, w: WorkEvent)
    requires WorkEnabled(cfg, s, a, w) && !w.Start? && !WritesTrail(w) && !w.GetMedia? && !w.GetSelfie? && !w.Acquire?
    requires !w.ReadTenant? && !w.Analyze? && !w.VerifyDocument?
    ensures var t := WorkApply(cfg, s, a, w); a in t.attempts && NextOnPath(s.attempts[a], w, t.attempts[a])
  {
    hide Path;
  }

  lemma WritePath(cfg: Settings, s: State, a: AttemptId, w: WorkEvent)
    requires WorkEnabled(cfg, s, a, w) && WritesTrail(w) && Orderly(s.attempts[a])
    ensures var t := WorkApply(cfg, s, a, w); a in t.attempts && NextOnPath(s.attempts[a], w, t.attempts[a])
  {
    hide Storable, NextOnPath;
    match w
    case IssueToken(token) => IssuePath(s, a, token);
    case WriteAudit => AuditPath(s, a);
    case WriteRecord => RecordPath(s, a);
    case Send(ok) => SendNext(s.attempts[a], ok, DoSend(cfg, s, a, ok).attempts[a]);
    case _ =>
  }

  lemma IssuePath(s: State, a: AttemptId, token: Token)
    requires At(s, a) && s.attempts[a].pc.Issuing?
    ensures NextOnPath(s.attempts[a], IssueToken(token), DoIssue(s, a, token).attempts[a])
  {
    hide NextOnPath;
    WriteNext(s.attempts[a], IssueToken(token), DoIssue(s, a, token).attempts[a]);
  }

  lemma AuditPath(s: State, a: AttemptId)
    requires At(s, a) && s.attempts[a].pc.Auditing?
    ensures NextOnPath(s.attempts[a], WriteAudit, DoAudit(s, a).attempts[a])
  {
    hide NextOnPath;
    WriteNext(s.attempts[a], WriteAudit, DoAudit(s, a).attempts[a]);
  }

  lemma RecordPath(s: State, a: AttemptId)
    requires At(s, a) && s.attempts[a].pc.Recording?
    ensures NextOnPath(s.attempts[a], WriteRecord, DoRecord(s, a).attempts[a])
  {
    hide NextOnPath;
    WriteNext(s.attempts[a], WriteRecord, DoRecord(s, a).attempts[a]);
  }

  lemma WriteNext(x: Attempt, w: WorkEvent, y: Attempt)
    requires y.job == x.job
    requires (x.pc.Issuing? && w.IssueToken? && y.pc == Auditing(x.pc.v, Some(w.token)))
             || (x.pc.Auditing? && w.WriteAudit? && y.pc == Recording(x.pc.v, x.pc.token))
             || (x.pc.Recording? && w.WriteRecord? && y.pc == Dispatching(x.pc.v, x.pc.token, 0))
    ensures NextOnPath(x, w, y)
  {
    hide ToVerdict;
    if w.WriteRecord? {
      var done := ToAudit(x.job, x.pc.v, x.pc.token);
      assert done + [WriteAudit, WriteRecord] + Refused(0) == done + [WriteAudit] + [WriteRecord];
    }
  }

  lemma SendNext(x: Attempt, ok: bool, y: Attempt)
    requires x.pc.Dispatching? && Orderly(x) && y.job == x.job
    requires y.pc.Deleting? || (!ok && y.pc == x.pc.(tries := x.pc.tries + 1))
    ensures NextOnPath(x, Send(ok), y)
  {
    hide ToAudit;
  }

  lemma ReadPath(cfg: Settings, s: State, a: AttemptId, w: WorkEvent)
    requires WorkEnabled(cfg, s, a, w) && (w.GetMedia? || w.GetSelfie? || w.Acquire?) && Orderly(s.attempts[a])
    ensures var t := WorkApply(cfg, s, a, w); a in t.attempts && NextOnPath(s.attempts[a], w, t.attempts[a])
  {
    hide Found;
    match w
    case GetMedia => assert WorkApply(cfg, s, a, w) == DoGet(s, a);
    case GetSelfie => assert WorkApply(cfg, s, a, w) == DoGetSelfie(s, a);
    case Acquire => assert WorkApply(cfg, s, a, w) == DoAcquire(cfg, s, a);
    case _ =>
  }

  lemma DecidePath(cfg: Settings, s: State, a: AttemptId, w: WorkEvent)
    requires WorkEnabled(cfg, s, a, w) && (w.ReadTenant? || w.Analyze? || w.VerifyDocument?)
    ensures var t := WorkApply(cfg, s, a, w); a in t.attempts && NextOnPath(s.attempts[a], w, t.attempts[a])
  {
    hide FaceConfig, DocumentCutoff, DecideDocument, DecideVerification, AgeFromDocument;
    match w
    case ReadTenant => assert WorkApply(cfg, s, a, w) == DoReadTenant(cfg, s, a);
    case Analyze(result) => assert WorkApply(cfg, s, a, w) == DoAnalyze(s, a, result);
    case VerifyDocument(check) => assert WorkApply(cfg, s, a, w) == DoVerify(s, a, check);
    case _ =>
  }

  ghost predicate OnPath(run: seq<Event>, a: AttemptId, x: Attempt) {
    InTry(x.pc) ==> Orderly(x) && Own(run, Worker(a)) == Steps(a, Path(x.job, x.pc))
  }

  ghost predicate AllOnPath(run: seq<Event>, attempts: map<AttemptId, Attempt>) {
    && (forall a | a in attempts :: OnPath(run, a, attempts[a]))
    && (forall a: AttemptId | a !in attempts :: Own(run, Worker(a)) == [])
  }

  /** In every legal run, an attempt inside its try block has taken exactly the steps on the path
      to where it stands, in that order, and whoever is no attempt has taken none. */
  lemma {:induction false} PathsTaken(cfg: Settings, s0: State, run: seq<Event>)
    requires FromStart(s0) && Legal(cfg, s0, run)
    ensures AllOnPath(run, Final(cfg, s0, run).attempts)
    decreases |run|
  {
    if run != [] {
      PathsTaken(cfg, s0, Front(run));
      hide OnPath, Path, Enabled, Apply;
      var s, t, e := Final(cfg, s0, Front(run)), Final(cfg, s0, run), run[|run| - 1];
      match e
      case Work(a, w) => WorkOnPath(cfg, s0, run);
      case _ =>
        QuietAttempts(cfg, s, e);
        OthersOnPath(run, s.attempts, None);
    }
  }

  /** Whoever did not move is where it was. */
  lemma OthersOnPath(run: seq<Event>, attempts: map<AttemptId, Attempt>, mover: Option<AttemptId>)
    requires run != [] && AllOnPath(Front(run), attempts)
    requires forall a: AttemptId | mover != Some(a) :: ByOther(run[|run| - 1], Worker(a))
    ensures forall a | a in attempts && mover != Some(a) :: OnPath(run, a, attempts[a])
    ensures forall a: AttemptId | a !in attempts && mover != Some(a) :: Own(run, Worker(a)) == []
  {
    hide Path, Steps;
    forall a | a in attempts && mover != Some(a) ensures OnPath(run, a, attempts[a]) {
      assert OnPath(Front(run), a, attempts[a]);
    }
  }

  lemma WorkOnPath(cfg: Settings, s0: State, run: seq<Event>)
    requires run != [] && Legal(cfg, s0, run) && run[|run| - 1].Work?
    requires AllOnPath(Front(run), Final(cfg, s0, Front(run)).attempts)
    ensures AllOnPath(run, Final(cfg, s0, run).attempts)
  {
    var s, t, e := Final(cfg, s0, Front(run)), Final(cfg, s0, run), run[|run| - 1];
    OneAttemptMoves(cfg, s, e.a, e.w);
    OthersOnPath(run, s.attempts, Some(e.a));
    MoverOnPath(cfg, s, e.a, e.w, run);
    hide OnPath, Own, Enabled, Apply;
  }

  lemma MoverOnPath(cfg: Settings, s: State, a: AttemptId, w: WorkEvent, run: seq<Event>)
    requires run != [] && run[|run| - 1] == Work(a, w) && WorkEnabled(cfg, s, a, w)
    requires AllOnPath(Front(run), s.attempts)
    ensures var t := WorkApply(cfg, s, a, w); a in t.attempts && OnPath(run, a, t.attempts[a])
  {
    if !w.Start? {
      assert OnPath(Front(run), a, s.attempts[a]) && InTry(s.attempts[a].pc) ==> Orderly(s.attempts[a]);
      PathStep(cfg, s, a, w);
      hide Path, WorkApply, WorkEnabled;
      StepsJoin(a, Path(s.attempts[a].job, s.attempts[a].pc), [w]);
    }
  }

  // ----- how a try block is left -----

  datatype Exit =
    | Verified(v: Verdict, token: Option<Token>)
    | Skipped   // the once-key was taken
    | Threw
    | Died      // the process crashed: no finally

  /** Step w leaves the try block at pc: a webhook request was accepted; the once-key was taken; an
      image was not there, the last request was refused, or an await threw; or the process died. */
  predicate LeavesBy(cfg: Settings, s: State, job: Job, pc: Pc, w: WorkEvent, exit: Exit) {
    && InTry(pc)
    && match exit
       case Verified(v, token) => pc.Dispatching? && pc == Dispatching(v, token, pc.tries)
         && 0 <= pc.tries <= cfg.retries && w == Send(true)
       case Skipped => pc.Acquiring? && w == Acquire && Redis.Live(s.once, job, s.now)
       case Threw =>
         || w == Throw
         || (w == GetMedia && pc.Getting? && job.phase.FacePhase? && !Found(s, FrameRef(job.tx)))
         || (w == GetSelfie && pc.GettingSelfie? && !(pc.documentFound && Found(s, SelfieRef(job.tx))))
         || (w == Send(false) && pc.Dispatching? && pc.tries == cfg.retries)
       case Died => w == Crash
  }

  /** The last step of the run is that of attempt a that leaves its try block that way, after
      exactly the steps on the path to where it stood. */
  ghost predicate Left(cfg: Settings, s0: State, run: seq<Event>, a: AttemptId, job: Job, exit: Exit) {
    && run != [] && Legal(cfg, s0, Front(run)) && run[|run| - 1].Work? && run[|run| - 1].a == a
    && var s := Final(cfg, s0, Front(run));
    && At(s, a) && s.attempts[a].job == job
    && LeavesBy(cfg, s, job, s.attempts[a].pc, run[|run| - 1].w, exit)
    && Own(run, Worker(a)) == Steps(a, Path(job, s.attempts[a].pc) + [run[|run| - 1].w])
  }

  /** The deletes of a finally block: every media ref of the job. */
  function Deletes(job: Job): seq<WorkEvent> {
    if job.phase.FacePhase? then [Delete] else [Delete, DeleteSelfie]
  }

  /** The steps of a finally block that ends there: the media of the job is deleted, ref by ref,
      before a discard row is left; a delete that throws, or a crash, cuts it short. */
  predicate Cleaned(job: Job, clean: seq<WorkEvent>, end: Pc) {
    && clean != []
    && match end
       case Done => clean[..|clean| - 1] == Deletes(job) && clean[|clean| - 1].Discard?
       case Failed => clean[..|clean| - 1] < Deletes(job) && clean[|clean| - 1] == DeleteFails
       case Dead => clean[..|clean| - 1] <= Deletes(job) && clean[|clean| - 1] == Crash
       case _ => false
  }

  lemma LeftHere(cfg: Settings, s0: State, run: seq<Event>, a: AttemptId, w: WorkEvent, job: Job, pc: Pc, exit: Exit)
    requires FromStart(s0) && Legal(cfg, s0, run)
    requires At(Final(cfg, s0, run), a) && Final(cfg, s0, run).attempts[a] == Attempt(job, pc)
    requires LeavesBy(cfg, Final(cfg, s0, run), job, pc, w, exit)
    ensures Left(cfg, s0, run + [Work(a, w)], a, job, exit)
  {
    PathsTaken(cfg, s0, run);
    hide LeavesBy, Path, Legal, Final, At;
    assert Front(run + [Work(a, w)]) == run;
    assert OnPath(run, a, Attempt(job, pc));
    InsideTry(cfg, Final(cfg, s0, run), job, pc, w, exit);
    StepsJoin(a, Path(job, pc), [w]);
  }

  lemma InsideTry(cfg: Settings, s: State, job: Job, pc: Pc, w: WorkEvent, exit: Exit)
    requires LeavesBy(cfg, s, job, pc, w, exit)
    ensures InTry(pc)
  {
  }

  /** A verified exit: the attempt itself has read the age that is the cutoff, and was given what the
      verdict was measured on, in the order of its phase. */
  lemma VerifiedIsFounded(cfg: Settings, s0: State, run: seq<Event>, a: AttemptId, job: Job, exit: Exit)
    requires FromStart(s0) && Left(cfg, s0, run, a, job, exit) && exit.Verified? && Legal(cfg, s0, run)
    ensures Founded(cfg, s0, run, a, job.tx, exit.v.basis)
  {
    RunFounded(cfg, s0, Front(run));
    var s := Final(cfg, s0, Front(run));
    assert VerdictAt(s.attempts[a].pc) == Some(exit.v);
    hide Founded, Legal, Final;
    LaterFounded(cfg, s0, run, a, job.tx, exit.v.basis);
  }

  // ----- request handlers -----

  lemma StepKeepsRequests(cfg: Settings, s: State, e: Event)
    requires Enabled(cfg, s, e)
    ensures s.requests.Keys <= Apply(cfg, s, e).requests.Keys
    ensures e.Http? ==> e.r in Apply(cfg, s, e).requests
  {
    hide HttpApply, HttpEnabled, WorkApply, WorkEnabled;
    match e
    case Http(r, h) => RequestMoves(cfg, s, r, h);
    case Work(a, w) => WorkLeavesDesk(cfg, s, a, w);
    case _ =>
  }

  lemma RequestMoves(cfg: Settings, s: State, r: RequestId, h: HttpEvent)
    requires HttpEnabled(cfg, s, r, h)
    ensures r in HttpApply(cfg, s, r, h).requests && s.requests.Keys <= HttpApply(cfg, s, r, h).requests.Keys
  {
  }

  /** A request that is not there has taken no step. */
  lemma {:induction false} NoStepsYet(cfg: Settings, s0: State, run: seq<Event>, r: RequestId)
    requires FromStart(s0) && Legal(cfg, s0, run) && r !in Final(cfg, s0, run).requests
    ensures Own(run, Handler(r)) == []
    decreases |run|
  {
    if run != [] {
      hide Enabled, Apply;
      StepKeepsRequests(cfg, Final(cfg, s0, Front(run)), run[|run| - 1]);
      NoStepsYet(cfg, s0, Front(run), r);
    }
  }
}
