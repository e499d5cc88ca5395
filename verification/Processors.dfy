/** The two job processors as code: a try block of awaited steps, and a finally block that
    deletes the media. Every step is one event of the protocol, so every execution is a run. */
module Processors {
  import opened Wrappers
  import opened Decision
  import opened Pipeline
  import opened PipelineTheorems
  import opened PipelineAnyRun
  import opened PipelineTruth
  import opened PipelineErasure
  import opened PipelineSources
  import opened PipelinePaths
  import opened Runtime
  import opened PipelineMedia
  import opened PipelineMoves
  import Base64
  import FrameCodec
  import opened FrameCrypto
  import opened Sets
  import FrameStore
  import Redis

  /** Attempt a of that job stands at pc in a legal run. */
  ghost predicate Running(d: Deployment, a: AttemptId, job: Job, pc: Pc)
    reads d
  {
    d.Valid() && Stands(d.s, a, job, pc)
  }

  /** The attempt has just left its try block that way: its own steps are those on the path to
      where it stood, and the one that took it out. */
  ghost predicate Leaves(d: Deployment, a: AttemptId, job: Job, exit: Exit)
    reads d
  {
    Running(d, a, job, AfterTry(exit)) && Left(d.cfg, d.start, d.history, a, job, exit)
  }

  function AfterTry(exit: Exit): Pc {
    if exit.Died? then Dead else Deleting
  }

  /** The verdict is in the history of both tables and was sent to the tenant. */
  predicate Delivered(s: State, tx: TxId, v: Verdict, token: Option<Token>) {
    && tx in s.trails && v in s.trails[tx].audits && v in s.trails[tx].records
    && Payload(tx, v.status, IsOver18(v.status), token) in s.trails[tx].sent
  }

  lemma DeliveredStays(s: State, t: State, tx: TxId, v: Verdict, token: Option<Token>)
    requires Progress(s, t) && Delivered(s, tx, v, token)
    ensures Delivered(t, tx, v, token)
  {
  }

  /** A verified exit: the verdict is delivered, and the attempt itself has read the age that is the
      cutoff, of the tenant of the transaction, and was given what the verdict was measured on. */
  ghost predicate Accounted(d: Deployment, a: AttemptId, job: Job, exit: Exit)
    reads d
  {
    exit.Verified? ==>
      Delivered(d.s, job.tx, exit.v, exit.token) && Founded(d.cfg, d.start, d.history, a, job.tx, exit.v.basis)
  }

  lemma Accounts(d: Deployment, a: AttemptId, job: Job, exit: Exit)
    requires Leaves(d, a, job, exit) && (exit.Verified? ==> Delivered(d.s, job.tx, exit.v, exit.token))
    ensures Accounted(d, a, job, exit)
  {
    hide Delivered, Founded, Left, Legal, Final, At;
    if exit.Verified? { VerifiedIsFounded(d.cfg, d.start, d.history, a, job, exit); }
  }

  // ----- throws of the code itself -----

  /** Step w at pc takes the attempt out of its try block by a throw of the code itself, no awaited call
      having failed: an image is missing or cannot be opened, there is no tenant row, the record table
      refuses the verdict, or the last webhook request was refused, or none may be sent. */
  predicate OwnThrow(cfg: Settings, s: State, job: Job, pc: Pc, w: WorkEvent, readable: bool) {
    || w == GetMedia || w == GetSelfie || w == Send(false)
    || (w == Throw && pc.Recording? && !Storable(pc.v))
    || (w == Throw && (pc.Scoping? || pc.Deciding?) && job in s.jobs && s.jobs[job] !in s.requiredAge)
    || (w == Throw && pc.Dispatching? && cfg.retries < 0)
    || (w == Throw && (pc.Scoping? || pc.Analyzing? || pc.Verifying?) && !readable)
  }

  /** The last step of the run was such a one. */
  ghost predicate Deserved(cfg: Settings, start: State, run: seq<Event>, a: AttemptId, job: Job, readable: bool) {
    && run != [] && Legal(cfg, start, Front(run)) && run[|run| - 1].Work? && run[|run| - 1].a == a
    && var s := Final(cfg, start, Front(run));
    && a in s.attempts && s.attempts[a].job == job
    && OwnThrow(cfg, s, job, s.attempts[a].pc, run[|run| - 1].w, readable)
  }

  lemma DeservedHere(cfg: Settings, start: State, run: seq<Event>, a: AttemptId, w: WorkEvent, job: Job, pc: Pc,
                     readable: bool)
    requires Legal(cfg, start, run) && a in Final(cfg, start, run).attempts
    requires Final(cfg, start, run).attempts[a] == Attempt(job, pc)
    requires OwnThrow(cfg, Final(cfg, start, run), job, pc, w, readable)
    ensures Deserved(cfg, start, run + [Work(a, w)], a, job, readable)
  {
    hide OwnThrow, Legal, Final;
    assert Front(run + [Work(a, w)]) == run;
  }

  lemma DeservedAnyway(cfg: Settings, start: State, run: seq<Event>, a: AttemptId, job: Job, readable: bool)
    requires Deserved(cfg, start, run, a, job, true)
    ensures Deserved(cfg, start, run, a, job, readable)
  {
    hide Legal, Final;
  }

  /** The code threw, whether or not the images can be opened. */
  ghost predicate Plainly(d: Deployment, a: AttemptId, job: Job)
    reads d
  {
    Deserved(d.cfg, d.start, d.history, a, job, true)
  }

  lemma WaitKeepsPlace(s: State, t: State, a: AttemptId)
    requires At(s, a) && Progress(s, t) && Untouched(s, t, Worker(a))
    ensures At(t, a) && t.attempts[a] == s.attempts[a]
  {
  }

  /** While the worker waits, the others run. */
  method Pause(d: Deployment, a: AttemptId, ghost job: Job, ghost pc: Pc)
    requires Running(d, a, job, pc)
    modifies d`s, d`history
    ensures Running(d, a, job, pc) && old(d.history) <= d.history && Progress(old(d.s), d.s)
    ensures Own(d.history, Worker(a)) == Own(old(d.history), Worker(a))
  {
    hide Enabled, Apply, Progress, Untouched, At, Own;
    d.Wait(Worker(a));
    WaitKeepsPlace(old(d.s), d.s, a);
  }

  /** One step of the worker itself. */
  method Act(d: Deployment, a: AttemptId, ghost job: Job, ghost pc: Pc, w: WorkEvent)
    requires Running(d, a, job, pc) && !w.Start? && WorkEnabled(d.cfg, d.s, a, w)
    modifies d`s, d`history
    ensures d.history == old(d.history) + [Work(a, w)] && d.s == WorkApply(d.cfg, old(d.s), a, w)
    ensures Progress(old(d.s), d.s) && At(d.s, a) && Running(d, a, job, d.s.attempts[a].pc)
    ensures Own(d.history, Worker(a)) == Own(old(d.history), Worker(a)) + [Work(a, w)]
  {
    StepProgress(d.cfg, d.s, Work(a, w));
    OneAttemptMoves(d.cfg, d.s, a, w);
    OwnNext(d.history, Work(a, w), Worker(a));
    hide Progress, WorkApply, WorkEnabled, Own;
    d.Step(Work(a, w));
    JobStays(old(d.s), d.s, a);
  }

  lemma JobStays(s: State, t: State, a: AttemptId)
    requires At(s, a) && Progress(s, t)
    ensures At(t, a) && t.attempts[a].job == s.attempts[a].job
  {
  }

  /** The step that takes the attempt out of its try block. */
  method Leave(d: Deployment, a: AttemptId, ghost job: Job, ghost pc: Pc, w: WorkEvent, ghost exit: Exit)
    requires Running(d, a, job, pc) && !w.Start? && WorkEnabled(d.cfg, d.s, a, w)
    requires LeavesBy(d.cfg, d.s, job, pc, w, exit)
    requires a in WorkApply(d.cfg, d.s, a, w).attempts && WorkApply(d.cfg, d.s, a, w).attempts[a].pc == AfterTry(exit)
    modifies d`s, d`history
    ensures d.history == old(d.history) + [Work(a, w)] && d.s == WorkApply(d.cfg, old(d.s), a, w)
    ensures Leaves(d, a, job, exit) && (exit.Threw? && w != Throw ==> Plainly(d, a, job))
  {
    LeftHere(d.cfg, d.start, d.history, a, w, job, pc, exit);
    if exit.Threw? && w != Throw { DeservedHere(d.cfg, d.start, d.history, a, w, job, pc, true); }
    hide Progress, WorkApply, WorkEnabled, Own, Left, LeavesBy, Deserved, Legal, Final, At;
    Act(d, a, job, pc, w);
  }

  /** An await inside try: it comes back, throws, or the process dies. */
  method Await(d: Deployment, a: AttemptId, ghost job: Job, ghost pc: Pc) returns (up: bool, exit: Exit)
    requires Running(d, a, job, pc) && InTry(pc)
    modifies d
    ensures old(d.history) <= d.history && (exit.Threw? || exit.Died?)
    ensures if up then Running(d, a, job, pc) else Leaves(d, a, job, exit)
    ensures if up then d.faults == old(d.faults) else old(d.faults) < d.faults
  {
    hide Enabled, Apply, Progress, Untouched, Own, Left, WorkApply, WorkEnabled;
    Pause(d, a, job, pc);
    ThrowEnabled(d.cfg, d.s, a);
    if * {
      Leave(d, a, job, pc, Throw, Threw);
      d.faults := d.faults + 1;
      return false, Threw;
    }
    if * {
      Leave(d, a, job, pc, Crash, Died);
      d.faults := d.faults + 1;
      return false, Died;
    }
    return true, Threw;
  }

  /** The code in the try block throws, for one of the reasons that it has. */
  method Fail(d: Deployment, a: AttemptId, ghost job: Job, ghost pc: Pc, ghost readable: bool)
    requires Running(d, a, job, pc) && InTry(pc) && OwnThrow(d.cfg, d.s, job, pc, Throw, readable)
    modifies d`s, d`history
    ensures old(d.history) <= d.history && Leaves(d, a, job, Threw)
    ensures Deserved(d.cfg, d.start, d.history, a, job, readable)
  {
    ThrowEnabled(d.cfg, d.s, a);
    DeservedHere(d.cfg, d.start, d.history, a, Throw, job, pc, readable);
    hide Enabled, Apply, Progress, Left, WorkApply, WorkEnabled, Deserved, OwnThrow;
    Leave(d, a, job, pc, Throw, Threw);
  }

  lemma ThrowEnabled(cfg: Settings, s: State, a: AttemptId)
    requires At(s, a) && InTry(s.attempts[a].pc)
    ensures WorkEnabled(cfg, s, a, Throw) && WorkApply(cfg, s, a, Throw) == Goto(s, a, Deleting)
    ensures WorkEnabled(cfg, s, a, Crash) && WorkApply(cfg, s, a, Crash) == Goto(s, a, Dead)
  {
  }

  // ----- the collaborators of a processor, one awaited step each -----

  lemma StepTo(cfg: Settings, s: State, a: AttemptId, w: WorkEvent)
    requires At(s, a) && WorkEnabled(cfg, s, a, w) && !w.Start?
    ensures a in WorkApply(cfg, s, a, w).attempts
    ensures var x, pc := s.attempts[a], WorkApply(cfg, s, a, w).attempts[a].pc;
            match w
            case GetMedia =>
              pc == if x.job.phase.DocumentPhase? then GettingSelfie(Found(s, MainRef(x.job)))
                    else if Found(s, MainRef(x.job)) then Acquiring(s.now) else Deleting
            case GetSelfie =>
              pc == if x.pc.documentFound && Found(s, SelfieRef(x.job.tx)) then Acquiring(s.now) else Deleting
            case Acquire =>
              pc == if Redis.Live(s.once, x.job, s.now) then Deleting
                    else if x.job.phase.FacePhase? then Scoping else Verifying
            case VerifyDocument(check) => pc == Deciding(check, s.now)
            case WriteAudit => pc == Recording(x.pc.v, x.pc.token)
            case WriteRecord => pc == Dispatching(x.pc.v, x.pc.token, 0)
            case _ => true
  {
  }

  /** What store.get finds. */
  function Lookup(s: State, ref: Ref): Option<Media> {
    FrameStore.Lookup(s.store, ref, s.now)
  }

  /** store.get of the frame; the code after it throws when there is none. */
  method GetFrame(d: Deployment, a: AttemptId, ghost job: Job) returns (bytes: Option<Media>, ghost at: int)
    requires Running(d, a, job, Getting) && job.phase.FacePhase?
    modifies d`s, d`history
    ensures d.history == old(d.history) + [Work(a, GetMedia)] && bytes == Lookup(old(d.s), FrameRef(job.tx))
    ensures bytes.Some? ==> Got(d.cfg, d.start, d.history, a, FrameRef(job.tx), bytes.value)
    ensures if bytes.Some? then Running(d, a, job, Acquiring(at)) else Leaves(d, a, job, Threw) && Plainly(d, a, job)
  {
    StepTo(d.cfg, d.s, a, GetMedia);
    at := d.s.now;
    bytes := Lookup(d.s, FrameRef(d.s.attempts[a].job.tx));
    assert Found(d.s, FrameRef(job.tx)) == bytes.Some?;
    if bytes.Some? { GotNow(d.cfg, d.start, d.history, a, FrameRef(job.tx), bytes.value); }
    hide WorkApply, WorkEnabled, Progress, At, Own, Left, Got, Lookup, Legal, Final;
    GetEnabled(d.cfg, d.s, a);
    if bytes.Some? { Act(d, a, job, Getting, GetMedia); } else { Leave(d, a, job, Getting, GetMedia, Threw); }
  }

  lemma GetEnabled(cfg: Settings, s: State, a: AttemptId)
    requires At(s, a) && s.attempts[a].pc.Getting?
    ensures WorkEnabled(cfg, s, a, GetMedia)
  {
  }

  /** once.acquire; whoever finds the key taken returns. */
  method AcquireOnce(d: Deployment, a: AttemptId, ghost job: Job, ghost at: int) returns (first: bool)
    requires Running(d, a, job, Acquiring(at))
    modifies d`s, d`history
    ensures d.history == old(d.history) + [Work(a, Acquire)]
    ensures first == !Redis.Live(old(d.s.once), job, old(d.s.now))
    ensures if first then Running(d, a, job, if job.phase.FacePhase? then Scoping else Verifying)
            else Leaves(d, a, job, Skipped)
  {
    StepTo(d.cfg, d.s, a, Acquire);
    hide WorkApply, Progress, Own, Left;
    first := !Redis.Live(d.s.once, d.s.attempts[a].job, d.s.now);
    if first { Act(d, a, job, Acquiring(at), Acquire); } else { Leave(d, a, job, Acquiring(at), Acquire, Skipped); }
  }

  /** findOneOrFail of the tenant row: its required age, or a throw when there is no row. */
  method ReadRequiredAge(d: Deployment, a: AttemptId, ghost job: Job, ghost pc: Pc) returns (age: Option<int>)
    requires Running(d, a, job, pc) && (pc.Scoping? || pc.Deciding?)
    modifies d`s, d`history
    ensures old(d.history) <= d.history
    ensures job in old(d.s.jobs)
            && age == if old(d.s.jobs)[job] in old(d.s.requiredAge)
                  then Some(old(d.s.requiredAge)[old(d.s.jobs)[job]]) else None
    ensures if age.Some? then Running(d, a, job, AfterTenant(d.cfg, pc, age.value))
            else Leaves(d, a, job, Threw) && Plainly(d, a, job)
  {
    hide Progress, AfterTenant, Own, Left;
    var tenant := d.s.jobs[d.s.attempts[a].job];
    if tenant !in d.s.requiredAge {
      hide WorkApply, WorkEnabled;
      Fail(d, a, job, pc, true);
      return None;
    }
    age := Some(d.s.requiredAge[tenant]);
    TenantStands(d.cfg, d.s, a, job, pc);
    hide WorkApply, WorkEnabled;
    Act(d, a, job, pc, ReadTenant);
  }

  /** provider.analyze: it is shown the frame, and may answer anything. */
  method AnalyzeFrame(d: Deployment, a: AttemptId, ghost job: Job, ghost cfg: Config, frame: array<Base64.Byte>)
    returns (result: AgeResult, ghost shown: Base64.Bytes)
    requires Running(d, a, job, Analyzing(cfg))
    modifies d`s, d`history
    ensures d.history == old(d.history) + [Work(a, Analyze(result))] && shown == frame[..] == old(frame[..])
    ensures var v := FaceOutcome(result, cfg);
            Running(d, a, job, if v.status == DocumentoRequerido then Issuing(v) else Auditing(v, None))
  {
    hide Progress, DecideVerification, Own;
    shown := frame[..];
    result := *;
    AnalyzeStands(d.cfg, d.s, a, job, cfg, result);
    hide WorkApply, WorkEnabled;
    Act(d, a, job, Analyzing(cfg), Analyze(result));
  }

  /** issueDocumentSession: a token never drawn before, saved with tenant, transaction and instant. */
  method IssueDocumentSession(d: Deployment, a: AttemptId, ghost job: Job, ghost v: Verdict) returns (token: Token)
    requires Running(d, a, job, Issuing(v))
    modifies d`s, d`history
    ensures d.history == old(d.history) + [Work(a, IssueToken(token))] && token !in old(d.s.tokens)
              && token in d.s.tokens
    ensures job in old(d.s.jobs)
            && d.s.documentSessions
               == old(d.s.documentSessions)[token := DocumentSession(old(d.s.jobs)[job], job.tx, old(d.s.now))]
    ensures Running(d, a, job, Auditing(v, Some(token)))
  {
    SomeNatIsNew(d.s.tokens);
    token :| token !in d.s.tokens;
    IssueStands(d.cfg, d.s, a, job, v, token);
    hide WorkApply, WorkEnabled, Progress, Own;
    Act(d, a, job, Issuing(v), IssueToken(token));
  }

  /** audit.record. */
  method Audit(d: Deployment, a: AttemptId, ghost job: Job, v: Verdict, token: Option<Token>)
    requires Running(d, a, job, Auditing(v, token))
    modifies d`s, d`history
    ensures d.history == old(d.history) + [Work(a, WriteAudit)]
    ensures Running(d, a, job, Recording(v, token))
  {
    StepTo(d.cfg, d.s, a, WriteAudit);
    hide WorkApply, Progress, Own;
    Act(d, a, job, Auditing(v, token), WriteAudit);
  }

  /** records.saveWith: the columns refuse a number that is no integer. */
  method SaveRecord(d: Deployment, a: AttemptId, ghost job: Job, v: Verdict, token: Option<Token>) returns (saved: bool)
    requires Running(d, a, job, Recording(v, token))
    modifies d`s, d`history
    ensures saved == Storable(v) && old(d.history) <= d.history
    ensures if saved then Running(d, a, job, Dispatching(v, token, 0))
            else Leaves(d, a, job, Threw) && Plainly(d, a, job)
  {
    hide Storable, Progress, Own, Left;
    saved := Storable(v);
    if !saved {
      hide WorkApply, WorkEnabled;
      Fail(d, a, job, Recording(v, token), true);
      return;
    }
    StepTo(d.cfg, d.s, a, WriteRecord);
    hide WorkApply;
    Act(d, a, job, Recording(v, token), WriteRecord);
  }

  // ----- sending -----

  lemma SendStep(cfg: Settings, s: State, a: AttemptId, ok: bool)
    requires At(s, a) && s.attempts[a].pc.Dispatching? && s.attempts[a].pc.tries <= cfg.retries
    ensures WorkEnabled(cfg, s, a, Send(ok)) && WorkApply(cfg, s, a, Send(ok)) == DoSend(cfg, s, a, ok)
    ensures DoSend(cfg, s, a, ok).attempts[a].pc
            == if !ok && s.attempts[a].pc.tries < cfg.retries
                then s.attempts[a].pc.(tries := s.attempts[a].pc.tries + 1) else Deleting
  {
  }

  lemma SendDelivers(cfg: Settings, s: State, a: AttemptId, ok: bool)
    requires Truthful(s) && At(s, a) && s.attempts[a].pc.Dispatching?
    ensures Delivered(DoSend(cfg, s, a, ok), s.attempts[a].job.tx, s.attempts[a].pc.v, s.attempts[a].pc.token)
  {
    assert AttemptTrue(s, s.attempts[a]);
    hide Truthful, AttemptTrue;
  }

  lemma PostDelivers(d: Deployment, a: AttemptId, ok: bool)
    requires d.Valid() && At(d.s, a) && d.s.attempts[a].pc.Dispatching?
    ensures Delivered(DoSend(d.cfg, d.s, a, ok), d.s.attempts[a].job.tx, d.s.attempts[a].pc.v, d.s.attempts[a].pc.token)
  {
    hide Truthful, Delivered, DoSend;
    RunTruth(d.cfg, d.start, d.history);
    SendDelivers(d.cfg, d.s, a, ok);
  }

  /** One webhook request: it carries the verdict that both tables hold. */
  method Post(d: Deployment, a: AttemptId, ghost job: Job, ghost v: Verdict, ghost token: Option<Token>, tries: nat,
      ok: bool)
    requires Running(d, a, job, Dispatching(v, token, tries)) && tries <= d.cfg.retries
    modifies d`s, d`history
    ensures d.history == old(d.history) + [Work(a, Send(ok))] && Delivered(d.s, job.tx, v, token)
    ensures if ok then Leaves(d, a, job, Verified(v, token))
            else if tries < d.cfg.retries then Running(d, a, job, Dispatching(v, token, tries + 1))
            else Leaves(d, a, job, Threw) && Plainly(d, a, job)
  {
    SendStep(d.cfg, d.s, a, ok);
    PostDelivers(d, a, ok);
    hide WorkApply, WorkEnabled, Progress, DoSend, Delivered, Own, Left, Legal, Final;
    if !ok && tries < d.cfg.retries {
      Act(d, a, job, Dispatching(v, token, tries), Send(false));
    } else {
      Leave(d, a, job, Dispatching(v, token, tries), Send(ok), if ok then Verified(v, token) else Threw);
    }
  }

  /** webhook.dispatch: up to retries + 1 requests, until one is accepted; then it throws. */
  method Dispatch(d: Deployment, a: AttemptId, ghost job: Job, v: Verdict, token: Option<Token>) returns (exit: Exit)
    requires Running(d, a, job, Dispatching(v, token, 0))
    modifies d
    ensures old(d.faults) <= d.faults && (exit.Died? ==> old(d.faults) < d.faults)
    ensures exit.Threw? && d.faults == old(d.faults) ==> Plainly(d, a, job)
    ensures old(d.history) <= d.history && Leaves(d, a, job, exit) && Accounted(d, a, job, exit)
    ensures exit == Verified(v, token) || exit.Threw? || exit.Died?
  {
    hide Running, Progress, Delivered, Left;
    var attempt: nat := 0;
    while attempt <= d.cfg.retries
      invariant Running(d, a, job, Dispatching(v, token, attempt)) && old(d.history) <= d.history
      invariant d.faults == old(d.faults) && (attempt > 0 ==> attempt <= d.cfg.retries)
    {
      var up;
      up, exit := Await(d, a, job, Dispatching(v, token, attempt));
      if !up { return; }
      var ok: bool := *;
      Post(d, a, job, v, token, attempt, ok);
      if ok {
        Accounts(d, a, job, Verified(v, token));
        return Verified(v, token);
      }
      if attempt >= d.cfg.retries { return Threw; }
      attempt := attempt + 1;
    }
    Fail(d, a, job, Dispatching(v, token, attempt), true);
    return Threw;
  }

  // ----- the face check -----

  /** The decrypted frame is overwritten before the buffer is let go. */
  method Zero(frame: array<Base64.Byte>)
    modifies frame
    ensures forall i | 0 <= i < frame.Length :: frame[i] == 0
  {
    for i := 0 to frame.Length
      invariant forall k | 0 <= k < i :: frame[k] == 0
    {
      frame[i] := 0;
    }
  }

  /** The verdict of a face check is that of the rule on some provider result, over the configured
      numbers and for a tenant that requires that age; it fits the record table, and a document token
      goes with documento_requerido only. */
  predicate ByTheRule(exit: Exit, base: Config, age: int)
    requires exit.Verified?
  {
    && exit.v.basis.ByFace? && FaceRule(base, age, exit.v.basis.result, exit.v.status)
    && FaceThresholds(base, age, exit.v.basis.cfg) && Storable(exit.v)
    && (exit.token.Some? <==> exit.v.status == DocumentoRequerido)
  }

  /** VerificationService.verify: the frame is decrypted, or the call throws; the provider is shown what
      was decrypted; and unless the process dies the buffer it was in holds only zeros afterwards. */
  method Verify(d: Deployment, a: AttemptId, ghost job: Job, effectiveCutoffAge: int, crypto: Crypto,
      encrypted: FrameCodec.EncryptedFrame)
    returns (exit: Exit, frame: array<Base64.Byte>, ghost shown: Option<Base64.Bytes>)
    requires Running(d, a, job, Analyzing(FaceConfig(d.cfg.decision, effectiveCutoffAge)))
    modifies d
    ensures old(d.faults) <= d.faults && (exit.Died? ==> old(d.faults) < d.faults)
    ensures exit.Threw? && d.faults == old(d.faults) ==>
              Deserved(d.cfg, d.start, d.history, a, job, DecryptFrame(crypto.cipher, crypto.key, encrypted).Some?)
    ensures old(d.history) <= d.history && Leaves(d, a, job, exit) && Accounted(d, a, job, exit) && !exit.Skipped?
    ensures exit.Verified? ==> ByTheRule(exit, d.cfg.decision, effectiveCutoffAge) && shown.Some?
    ensures var plain := DecryptFrame(crypto.cipher, crypto.key, encrypted);
            && (shown.Some? ==> shown == plain) && fresh(frame)
            && frame.Length == if plain.Some? then |plain.value| else 0
    ensures !exit.Died? ==> forall i | 0 <= i < frame.Length :: frame[i] == 0
  {
    hide Running, Delivered, FaceConfig, Left, Accounted;
    frame, shown := new Base64.Byte[0], None;
    var plain := DecryptFrame(crypto.cipher, crypto.key, encrypted);
    if plain.None? {
      Fail(d, a, job, Analyzing(FaceConfig(d.cfg.decision, effectiveCutoffAge)), false);
      Accounts(d, a, job, Threw);
      exit := Threw;
    } else {
      frame := new Base64.Byte[|plain.value|](i requires 0 <= i < |plain.value| => plain.value[i]);
      assert frame[..] == plain.value;
      exit, shown := VerifyFrame(d, a, job, effectiveCutoffAge, frame);
    }
    if !exit.Died? { Zero(frame); }
  }

  /** The rest of the try block of verify: decide, draw a document token in the grey zone, then audit
      row, record and webhook in this order. */
  method VerifyFrame(d: Deployment, a: AttemptId, ghost job: Job, effectiveCutoffAge: int, frame: array<Base64.Byte>)
    returns (exit: Exit, ghost shown: Option<Base64.Bytes>)
    requires Running(d, a, job, Analyzing(FaceConfig(d.cfg.decision, effectiveCutoffAge)))
    modifies d
    ensures old(d.faults) <= d.faults && (exit.Died? ==> old(d.faults) < d.faults)
    ensures exit.Threw? && d.faults == old(d.faults) ==> Plainly(d, a, job)
    ensures old(d.history) <= d.history && Leaves(d, a, job, exit) && Accounted(d, a, job, exit) && !exit.Skipped?
    ensures exit.Verified? ==> ByTheRule(exit, d.cfg.decision, effectiveCutoffAge)
    ensures (exit.Verified? ==> shown.Some?) && (shown.Some? ==> shown.value == old(frame[..]))
  {
    hide Running, Delivered, DecideVerification, Storable, Left, Founded;
    shown := None;
    var cfg := if effectiveCutoffAge != 0 then d.cfg.decision.(cutoffAge := effectiveCutoffAge as real)
               else d.cfg.decision;
    var up;
    up, exit := Await(d, a, job, Analyzing(cfg));
    if !up { return; }
    var result; ghost var seen;
    result, seen := AnalyzeFrame(d, a, job, cfg, frame);
    shown := Some(seen);
    var status := DecideVerification(result, cfg);
    FaceRuleExact(d.cfg.decision, effectiveCutoffAge, result, status);
    var v := Verdict(status, ByFace(result, cfg));
    var token: Option<Token> := None;
    if status == DocumentoRequerido {
      up, exit := Await(d, a, job, Issuing(v));
      if !up { return; }
      var k := IssueDocumentSession(d, a, job, v);
      token := Some(k);
    }
    exit := WriteAndSend(d, a, job, v, token);
  }

  /** Audit row, then record, then webhook: how both checks end. */
  method WriteAndSend(d: Deployment, a: AttemptId, ghost job: Job, v: Verdict, token: Option<Token>)
    returns (exit: Exit)
    requires Running(d, a, job, Auditing(v, token))
    modifies d
    ensures old(d.faults) <= d.faults && (exit.Died? ==> old(d.faults) < d.faults)
    ensures exit.Threw? && d.faults == old(d.faults) ==> Plainly(d, a, job)
    ensures old(d.history) <= d.history && Leaves(d, a, job, exit) && Accounted(d, a, job, exit)
    ensures (exit == Verified(v, token) && Storable(v)) || exit.Threw? || exit.Died?
  {
    hide Running, Delivered, Storable, Left, Founded;
    var up;
    up, exit := Await(d, a, job, Auditing(v, token));
    if !up { return; }
    Audit(d, a, job, v, token);
    up, exit := Await(d, a, job, Recording(v, token));
    if !up { return; }
    var saved := SaveRecord(d, a, job, v, token);
    if !saved { return Threw; }
    exit := Dispatch(d, a, job, v, token);
  }

  /** Something that the attempt found under the ref cannot be opened. */
  ghost predicate Unreadable(d: Deployment, a: AttemptId, ref: Ref, crypto: Crypto)
    reads d
  {
    UnreadableIn(d.cfg, d.start, d.history, a, ref, crypto)
  }

  ghost predicate UnreadableIn(cfg: Settings, start: State, run: seq<Event>, a: AttemptId, ref: Ref, crypto: Crypto) {
    exists m :: Got(cfg, start, run, a, ref, m) && Open(crypto.cipher, crypto.key, m) == None
  }

  lemma StaysUnreadable(cfg: Settings, start: State, run: seq<Event>, longer: seq<Event>, a: AttemptId, ref: Ref,
                        crypto: Crypto)
    requires UnreadableIn(cfg, start, run, a, ref, crypto) && run <= longer
    ensures UnreadableIn(cfg, start, longer, a, ref, crypto)
  {
    hide Got, Open;
    var m :| Got(cfg, start, run, a, ref, m) && Open(crypto.cipher, crypto.key, m) == None;
    LaterGot(cfg, start, run, longer, a, ref, m);
  }

  lemma StaysDeserved(cfg: Settings, start: State, run: seq<Event>, a: AttemptId, job: Job, readable: bool, now: bool)
    requires Deserved(cfg, start, run, a, job, readable) && (now ==> readable)
    ensures Deserved(cfg, start, run, a, job, now)
  {
    hide Deserved;
    if readable { DeservedAnyway(cfg, start, run, a, job, now); }
  }

  /** Where the code threw plainly, or could not open what it got, it threw rightly. */
  lemma FrameBlamed(d: Deployment, a: AttemptId, job: Job, crypto: Crypto, ref: Ref, m: Media)
    requires Got(d.cfg, d.start, d.history, a, ref, m)
    requires Deserved(d.cfg, d.start, d.history, a, job, Open(crypto.cipher, crypto.key, m).Some?)
    ensures Deserved(d.cfg, d.start, d.history, a, job, !Unreadable(d, a, ref, crypto))
  {
    hide Got, Open, Deserved;
    if Open(crypto.cipher, crypto.key, m).Some? {
      DeservedAnyway(d.cfg, d.start, d.history, a, job, !Unreadable(d, a, ref, crypto));
    }
  }

  lemma PlainlyBlamed(d: Deployment, a: AttemptId, job: Job, readable: bool)
    requires Plainly(d, a, job)
    ensures Deserved(d.cfg, d.start, d.history, a, job, readable)
  {
    hide Deserved;
    DeservedAnyway(d.cfg, d.start, d.history, a, job, readable);
  }

  /** The try block of VerificationProcessor.process. */
  method TryFace(d: Deployment, a: AttemptId, ghost job: Job, crypto: Crypto)
    returns (exit: Exit, ghost shown: Option<Base64.Bytes>)
    requires Running(d, a, job, Getting) && job.phase.FacePhase?
    modifies d
    ensures old(d.faults) <= d.faults && (exit.Died? ==> old(d.faults) < d.faults)
    ensures exit.Threw? && d.faults == old(d.faults) ==>
              Deserved(d.cfg, d.start, d.history, a, job, !Unreadable(d, a, FrameRef(job.tx), crypto))
    ensures old(d.history) <= d.history && Leaves(d, a, job, exit) && Accounted(d, a, job, exit)
    ensures exit.Verified? ==> shown.Some? && exists age :: ByTheRule(exit, d.cfg.decision, age)
    ensures shown.Some? ==> ShownIn(d.cfg, d.start, d.history, a, FrameRef(job.tx), crypto, shown.value)
  {
    hide Running, Delivered, Left, Founded, Storable, Got, Open, Deserved, Plainly, Unreadable, ByTheRule;
    shown := None;
    var up;
    up, exit := Await(d, a, job, Getting);
    if !up { return; }
    var bytes; ghost var at: int;
    bytes, at := GetFrame(d, a, job);
    if bytes.None? {
      PlainlyBlamed(d, a, job, !Unreadable(d, a, FrameRef(job.tx), crypto));
      return Threw, None;
    }
    ghost var got := d.history;
    up, exit := Await(d, a, job, Acquiring(at));
    if !up { return; }
    var first := AcquireOnce(d, a, job, at);
    if !first { return Skipped, None; }
    exit, shown := CheckFrame(d, a, job, crypto, bytes.value);
    LaterGot(d.cfg, d.start, got, d.history, a, FrameRef(job.tx), bytes.value);
    if exit.Threw? && d.faults == old(d.faults) { FrameBlamed(d, a, job, crypto, FrameRef(job.tx), bytes.value); }
  }

  /** What follows the once-key: the stored bytes are parsed, the tenant is read, the frame verified. */
  method CheckFrame(d: Deployment, a: AttemptId, ghost job: Job, crypto: Crypto, bytes: Media)
    returns (exit: Exit, ghost shown: Option<Base64.Bytes>)
    requires Running(d, a, job, Scoping)
    modifies d
    ensures old(d.faults) <= d.faults && (exit.Died? ==> old(d.faults) < d.faults)
    ensures exit.Threw? && d.faults == old(d.faults) ==>
              Deserved(d.cfg, d.start, d.history, a, job, Open(crypto.cipher, crypto.key, bytes).Some?)
    ensures old(d.history) <= d.history && Leaves(d, a, job, exit) && Accounted(d, a, job, exit) && !exit.Skipped?
    ensures exit.Verified? ==> shown.Some? && exists age :: ByTheRule(exit, d.cfg.decision, age)
    ensures shown.Some? ==> Open(crypto.cipher, crypto.key, bytes) == shown
  {
    hide Running, Delivered, FaceConfig, Left, Founded, Storable, FrameCodec.DeserializeFrame, DecryptFrame;
    shown := None;
    var encryptedFrame := FrameCodec.DeserializeFrame(bytes);
    if encryptedFrame.Err? {
      Fail(d, a, job, Scoping, false);
      return Threw, None;
    }
    var up;
    up, exit := Await(d, a, job, Scoping);
    if !up { return; }
    var age := ReadRequiredAge(d, a, job, Scoping);
    if age.None? { return Threw, None; }
    var frame;
    exit, frame, shown := Verify(d, a, job, age.value, crypto, encryptedFrame.value);
  }

  // ----- finally -----

  /** An await inside finally: the process may die, or the store may refuse. */
  method AwaitDelete(d: Deployment, a: AttemptId, ghost job: Job, ghost pc: Pc)
    returns (up: bool, ghost end: Pc, ghost last: seq<WorkEvent>)
    requires Running(d, a, job, pc) && (pc.Deleting? || pc.DeletingSelfie?)
    modifies d
    ensures old(d.history) <= d.history && Progress(old(d.s), d.s)
    ensures Running(d, a, job, end) && Own(d.history, Worker(a)) == Own(old(d.history), Worker(a)) + Steps(a, last)
    ensures if up then end == pc && last == []
            else (end == Failed && last == [DeleteFails]) || (end == Dead && last == [Crash])
    ensures if up then d.faults == old(d.faults) else old(d.faults) < d.faults
  {
    hide Progress, At, Enabled, Apply, Own;
    Pause(d, a, job, pc);
    ghost var s := d.s;
    up, end, last := *, pc, [];
    if !up {
      var died: bool := *;
      LeaveEnabled(d.cfg, d.s, a);
      hide WorkApply, WorkEnabled;
      Act(d, a, job, pc, if died then Crash else DeleteFails);
      d.faults := d.faults + 1;
      end, last := if died then Dead else Failed, [if died then Crash else DeleteFails];
      ProgressChains(old(d.s), s, d.s);
    }
  }

  lemma LeaveEnabled(cfg: Settings, s: State, a: AttemptId)
    requires At(s, a) && (s.attempts[a].pc.Deleting? || s.attempts[a].pc.DeletingSelfie?)
    ensures WorkEnabled(cfg, s, a, DeleteFails) && WorkApply(cfg, s, a, DeleteFails) == Goto(s, a, Failed)
    ensures WorkEnabled(cfg, s, a, Crash) && WorkApply(cfg, s, a, Crash) == Goto(s, a, Dead)
  {
  }

  /** Which delete comes at that point of the finally block, and what comes after it. */
  function DeleteAt(pc: Pc): WorkEvent {
    if pc.Deleting? then Delete else DeleteSelfie
  }

  function AfterDelete(job: Job, pc: Pc): Pc {
    if pc.Deleting? && job.phase.DocumentPhase? then DeletingSelfie else Discarding
  }

  /** store.delete of a media ref: it is not in the store any more. */
  method DeleteMedia(d: Deployment, a: AttemptId, ghost job: Job, ghost pc: Pc)
    requires Running(d, a, job, pc) && (pc.Deleting? || pc.DeletingSelfie?)
    modifies d`s, d`history
    ensures d.history == old(d.history) + [Work(a, DeleteAt(pc))] && Progress(old(d.s), d.s)
    ensures d.s.store == old(d.s.store) - {if pc.Deleting? then MainRef(job) else SelfieRef(job.tx)}
    ensures Running(d, a, job, AfterDelete(job, pc))
    ensures Own(d.history, Worker(a)) == Own(old(d.history), Worker(a)) + [Work(a, DeleteAt(pc))]
  {
    var w := if d.s.attempts[a].pc.Deleting? then Delete else DeleteSelfie;
    DeleteStep(d.cfg, d.s, a);
    hide Progress, WorkApply, WorkEnabled, Enabled, Apply, Own;
    Act(d, a, job, pc, w);
  }

  lemma DeleteStep(cfg: Settings, s: State, a: AttemptId)
    requires At(s, a) && (s.attempts[a].pc.Deleting? || s.attempts[a].pc.DeletingSelfie?)
    ensures var x, w := s.attempts[a], DeleteAt(s.attempts[a].pc);
            && WorkEnabled(cfg, s, a, w)
            && var t := WorkApply(cfg, s, a, w);
            && a in t.attempts && t.attempts[a].pc == AfterDelete(x.job, x.pc)
            && t.store == s.store - {if x.pc.Deleting? then MainRef(x.job) else SelfieRef(x.job.tx)}
  {
  }

  /** discard.record: best effort, never throws. */
  method RecordDiscard(d: Deployment, a: AttemptId, ghost job: Job) returns (ghost end: Pc, ghost last: seq<WorkEvent>)
    requires Running(d, a, job, Discarding)
    modifies d
    ensures old(d.history) <= d.history && Progress(old(d.s), d.s)
    ensures Running(d, a, job, end) && Own(d.history, Worker(a)) == Own(old(d.history), Worker(a)) + Steps(a, last)
    ensures |last| == 1 && ((end == Done && last[0].Discard?) || (end == Dead && last[0] == Crash))
    ensures if d.faults == old(d.faults) then last == [Discard(true)] else old(d.faults) < d.faults
  {
    hide Progress, Enabled, Apply, Own;
    Pause(d, a, job, Discarding);
    ghost var s := d.s;
    var written: bool := *;
    var died: bool := *;
    if died || !written { d.faults := d.faults + 1; }
    DiscardStep(d.cfg, d.s, a, written);
    hide WorkApply, WorkEnabled;
    Act(d, a, job, Discarding, if died then Crash else Discard(written));
    end, last := if died then Dead else Done, [if died then Crash else Discard(written)];
    ProgressChains(old(d.s), s, d.s);
  }

  lemma DiscardStep(cfg: Settings, s: State, a: AttemptId, written: bool)
    requires At(s, a) && s.attempts[a].pc.Discarding?
    ensures WorkEnabled(cfg, s, a, Crash) && WorkApply(cfg, s, a, Crash) == Goto(s, a, Dead)
    ensures WorkEnabled(cfg, s, a, Discard(written)) && a in WorkApply(cfg, s, a, Discard(written)).attempts
            && WorkApply(cfg, s, a, Discard(written)).attempts[a].pc == Done
  {
  }

  /** One awaited store.delete inside finally. */
  method TryDelete(d: Deployment, a: AttemptId, ghost job: Job, ghost pc: Pc)
    returns (up: bool, ghost end: Pc, ghost last: seq<WorkEvent>)
    requires Running(d, a, job, pc) && (pc.Deleting? || pc.DeletingSelfie?)
    modifies d
    ensures old(d.history) <= d.history && Progress(old(d.s), d.s)
    ensures Running(d, a, job, end) && Own(d.history, Worker(a)) == Own(old(d.history), Worker(a)) + Steps(a, last)
    ensures if up then end == AfterDelete(job, pc) && last == [DeleteAt(pc)]
            else (end == Failed && last == [DeleteFails]) || (end == Dead && last == [Crash])
    ensures if up then d.faults == old(d.faults) else old(d.faults) < d.faults
  {
    hide Running, Progress, Own;
    up, end, last := AwaitDelete(d, a, job, pc);
    if up {
      ghost var s := d.s;
      DeleteMedia(d, a, job, pc);
      end, last := AfterDelete(job, pc), [DeleteAt(pc)];
      ProgressChains(old(d.s), s, d.s);
    }
  }

  /** The store.delete calls of a finally block, in order. */
  method DeleteAll(d: Deployment, a: AttemptId, phase: Phase, ghost job: Job)
    returns (up: bool, ghost end: Pc, ghost clean: seq<WorkEvent>)
    requires Running(d, a, job, Deleting) && job.phase == phase
    modifies d
    ensures if up then d.faults == old(d.faults) else old(d.faults) < d.faults
    ensures old(d.history) <= d.history && Progress(old(d.s), d.s) && Running(d, a, job, end)
    ensures if up then end == Discarding && clean == Deletes(job) else Cleaned(job, clean, end)
    ensures Own(d.history, Worker(a)) == Own(old(d.history), Worker(a)) + Steps(a, clean)
  {
    hide Running, Progress, Own, Steps;
    up, end, clean := TryDelete(d, a, job, Deleting);
    if up && phase.DocumentPhase? {
      ghost var s, last := d.s, [];
      up, end, last := TryDelete(d, a, job, DeletingSelfie);
      StepsJoin(a, clean, last);
      clean := clean + last;
      ProgressChains(old(d.s), s, d.s);
    }
  }

  /** The finally block of both processors: every media ref is deleted, then a discard row is left. */
  method Finally(d: Deployment, a: AttemptId, phase: Phase, ghost job: Job)
    returns (ghost end: Pc, ghost clean: seq<WorkEvent>)
    requires Running(d, a, job, Deleting) && job.phase == phase
    modifies d
    ensures if d.faults == old(d.faults) then end == Done && clean == Deletes(job) + [Discard(true)]
            else old(d.faults) < d.faults
    ensures old(d.history) <= d.history && Progress(old(d.s), d.s)
    ensures Running(d, a, job, end) && Cleaned(job, clean, end)
    ensures Own(d.history, Worker(a)) == Own(old(d.history), Worker(a)) + Steps(a, clean)
  {
    hide Running, Progress, Own, Steps, Deletes;
    var up;
    up, end, clean := DeleteAll(d, a, phase, job);
    if up {
      ghost var s, last := d.s, [];
      end, last := RecordDiscard(d, a, job);
      StepsJoin(a, clean, last);
      clean := clean + last;
      ProgressChains(old(d.s), s, d.s);
    }
  }

  /** The media of the job is gone: the frame of a face check, or the two images of a document check
      unless a second document token has been issued for the transaction. */
  ghost predicate Erased(d: Deployment, job: Job)
    reads d
  {
    if job.phase.FacePhase? then FrameRef(job.tx) !in d.s.store
    else job.tx in d.s.trails && |d.s.trails[job.tx].issued| <= 1 ==> ImagesGone(d.s, job.tx)
  }

  /** An attempt at its end, whose try block was left that way at that point of the run, and which
      has taken those steps since. */
  ghost predicate Ended(d: Deployment, a: AttemptId, job: Job, exit: Exit, left: nat, clean: seq<WorkEvent>)
    reads d
  {
    && d.Valid() && At(d.s, a) && d.s.attempts[a].job == job
    && left <= |d.history| && Left(d.cfg, d.start, d.history[..left], a, job, exit)
    && Own(d.history, Worker(a)) == Own(d.history[..left], Worker(a)) + Steps(a, clean)
    && (if exit.Died? then d.s.attempts[a].pc.Dead? && clean == [] else Cleaned(job, clean, d.s.attempts[a].pc))
    && (d.s.attempts[a].pc.Done? ==> Erased(d, job))
    && (exit.Verified? ==>
          && Delivered(d.s, job.tx, exit.v, exit.token)
          && Founded(d.cfg, d.start, d.history[..left], a, job.tx, exit.v.basis))
  }

  lemma DoneErased(d: Deployment, a: AttemptId)
    requires d.Valid() && At(d.s, a) && d.s.attempts[a].pc.Done?
    ensures Erased(d, d.s.attempts[a].job)
  {
    var tx := d.s.attempts[a].job.tx;
    RunRooted(d.cfg, d.start, d.history);
    assert AttemptRooted(d.s, d.s.attempts[a]);
    RunSingle(d.cfg, d.start, d.history, tx);
    hide Rooted;
    if |d.s.trails[tx].issued| <= 1 { assert AttemptErases(d.s, tx, d.s.attempts[a]); }
  }

  /** Finally after a try block that ended some way. */
  method Finish(d: Deployment, a: AttemptId, phase: Phase, ghost job: Job, ghost exit: Exit)
    returns (ghost left: nat, ghost clean: seq<WorkEvent>)
    requires Leaves(d, a, job, exit) && Accounted(d, a, job, exit) && !exit.Died? && job.phase == phase
    modifies d
    ensures if d.faults == old(d.faults) then clean == Deletes(job) + [Discard(true)] else old(d.faults) < d.faults
    ensures left == |old(d.history)|
    ensures old(d.history) <= d.history && Ended(d, a, job, exit, left, clean)
  {
    ghost var s, before, end := d.s, d.history, Deleting;
    left := |before|;
    LeftFacts(d, a, job, exit);
    hide Leaves, Accounted, Running, Progress, Delivered, Left, Founded, Own, Steps, Cleaned, Ended;
    hide LeavesBy, Deployment.Valid;
    end, clean := Finally(d, a, phase, job);
    assert d.history[..left] == before;
    if exit.Verified? { DeliveredStays(s, d.s, job.tx, exit.v, exit.token); }
    EndsSo(d, a, job, exit, left, clean, end);
  }

  lemma LeftFacts(d: Deployment, a: AttemptId, job: Job, exit: Exit)
    requires Leaves(d, a, job, exit) && Accounted(d, a, job, exit) && !exit.Died?
    ensures Running(d, a, job, Deleting) && Left(d.cfg, d.start, d.history, a, job, exit)
    ensures exit.Verified? ==>
              && Delivered(d.s, job.tx, exit.v, exit.token)
              && Founded(d.cfg, d.start, d.history, a, job.tx, exit.v.basis)
  {
    hide Running, Left, Delivered, Founded;
  }

  lemma EndsSo(d: Deployment, a: AttemptId, job: Job, exit: Exit, left: nat, clean: seq<WorkEvent>, end: Pc)
    requires Running(d, a, job, end) && !exit.Died? && Cleaned(job, clean, end)
    requires left <= |d.history| && Left(d.cfg, d.start, d.history[..left], a, job, exit)
    requires Own(d.history, Worker(a)) == Own(d.history[..left], Worker(a)) + Steps(a, clean)
    requires exit.Verified? ==>
               && Delivered(d.s, job.tx, exit.v, exit.token)
               && Founded(d.cfg, d.start, d.history[..left], a, job.tx, exit.v.basis)
    ensures Ended(d, a, job, exit, left, clean)
  {
    hide Delivered, Erased, Left, Founded, Own, Steps, Cleaned, Legal, Final;
    if end == Done { DoneErased(d, a); }
  }

  /** The process died inside the try block. */
  lemma DiedThere(d: Deployment, a: AttemptId, job: Job)
    requires Leaves(d, a, job, Died)
    ensures Ended(d, a, job, Died, |d.history|, [])
  {
    hide Left, Legal, Final, Own;
    assert d.history[..|d.history|] == d.history;
  }

  lemma StartStep(cfg: Settings, s: State, a: AttemptId, job: Job)
    requires a !in s.attempts && job in s.jobs && job.tx in s.trails
    ensures Enabled(cfg, s, Work(a, Start(job)))
    ensures var t := Apply(cfg, s, Work(a, Start(job))); At(t, a) && t.attempts[a] == Attempt(job, Getting)
  {
  }

  /** A queued job is picked up under a new attempt id. */
  method PickUp(d: Deployment, a: AttemptId, job: Job)
    requires d.Valid() && a !in d.s.attempts && job in d.s.jobs && job.tx in d.s.trails
    modifies d`s, d`history
    ensures d.history == old(d.history) + [Work(a, Start(job))] && Running(d, a, job, Getting)
  {
    StartStep(d.cfg, d.s, a, job);
    hide Enabled, Apply;
    d.Step(Work(a, Start(job)));
  }

  /** VerificationProcessor.process. Its steps, among those of everybody else, are a legal run: the
      path of the try block up to where it was left, then the finally block. A verified attempt has
      delivered its verdict, and one whose finally block ran to its end leaves no frame. */
  method ProcessFace(d: Deployment, a: AttemptId, job: Job, crypto: Crypto)
    returns (exit: Exit, ghost left: nat, ghost clean: seq<WorkEvent>, ghost shown: Option<Base64.Bytes>)
    requires d.Valid() && a !in d.s.attempts && job in d.s.jobs && job.tx in d.s.trails && job.phase.FacePhase?
    modifies d
    ensures old(d.faults) <= d.faults && (exit.Died? ==> old(d.faults) < d.faults)
    ensures exit.Threw? && d.faults == old(d.faults) ==>
              left <= |d.history| && Deserved(d.cfg, d.start, d.history[..left], a, job,
                  !Unreadable(d, a, FrameRef(job.tx), crypto))
    ensures d.faults == old(d.faults) ==> clean == Deletes(job) + [Discard(true)]
    ensures old(d.history) <= d.history && Ended(d, a, job, exit, left, clean)
    ensures exit.Verified? ==> shown.Some? && exists age :: ByTheRule(exit, d.cfg.decision, age)
    ensures shown.Some? ==> ShownIn(d.cfg, d.start, d.history, a, FrameRef(job.tx), crypto, shown.value)
  {
    hide Delivered, Left, Founded, Own, Steps, Cleaned, Erased, Storable, FaceConfig, Legal, Final, ShownIn, ByTheRule;
    hide UnreadableIn, Deserved, Deletes;
    PickUp(d, a, job);
    exit, shown := TryFace(d, a, job, crypto);
    ghost var before := d.history;
    if exit.Died? {
      left, clean := |d.history|, [];
      DiedThere(d, a, job);
    } else {
      ghost var readable := !Unreadable(d, a, FrameRef(job.tx), crypto);
      left, clean := Finish(d, a, FacePhase, job, exit);
      assert d.history[..left] == before;
      if !readable { StaysUnreadable(d.cfg, d.start, before, d.history, a, FrameRef(job.tx), crypto); }
      if exit.Threw? && d.faults == old(d.faults) {
        StaysDeserved(d.cfg, d.start, before, a, job, readable, !Unreadable(d, a, FrameRef(job.tx), crypto));
      }
      if shown.Some? { ShownStays(d.cfg, d.start, before, d.history, a, FrameRef(job.tx), crypto, shown.value); }
    }
  }

  // ----- the document check -----

  /** Both store.get calls: neither result is looked at before both are in. */
  method GetImages(d: Deployment, a: AttemptId, ghost job: Job)
    returns (exit: Option<Exit>, document: Media, selfie: Media, ghost at: int)
    requires Running(d, a, job, Getting) && job.phase.DocumentPhase?
    modifies d
    ensures old(d.faults) <= d.faults && (exit == Some(Died) ==> old(d.faults) < d.faults)
    ensures exit == Some(Threw) && d.faults == old(d.faults) ==> Plainly(d, a, job)
    ensures exit.None? ==> d.faults == old(d.faults)
    ensures old(d.history) <= d.history
    ensures exit.Some? ==> exit.value.Threw? || exit.value.Died?
    ensures if exit.Some? then Leaves(d, a, job, exit.value) else Running(d, a, job, Acquiring(at))
    ensures exit.None? ==>
              && Got(d.cfg, d.start, d.history, a, DocumentRef(job.tx), document)
              && Got(d.cfg, d.start, d.history, a, SelfieRef(job.tx), selfie)
  {
    hide Running, Left, Got, Lookup, Progress, Leaves, Deserved, Plainly;
    document, selfie, at := [], [], 0;
    var docBytes := GetDocument(d, a, job);
    ghost var got := d.history;
    var up, why := Await(d, a, job, GettingSelfie(docBytes.Some?));
    if !up { return Some(why), document, selfie, at; }
    var selfieBytes;
    selfieBytes, at := GetSelfieImage(d, a, job, docBytes.Some?);
    if docBytes.None? || selfieBytes.None? { return Some(Threw), document, selfie, at; }
    LaterGot(d.cfg, d.start, got, d.history, a, DocumentRef(job.tx), docBytes.value);
    return None, docBytes.value, selfieBytes.value, at;
  }

  method GetDocument(d: Deployment, a: AttemptId, ghost job: Job) returns (bytes: Option<Media>)
    requires Running(d, a, job, Getting) && job.phase.DocumentPhase?
    modifies d`s, d`history
    ensures d.history == old(d.history) + [Work(a, GetMedia)] && Running(d, a, job, GettingSelfie(bytes.Some?))
    ensures bytes == Lookup(old(d.s), DocumentRef(job.tx))
    ensures bytes.Some? ==> Got(d.cfg, d.start, d.history, a, DocumentRef(job.tx), bytes.value)
  {
    StepTo(d.cfg, d.s, a, GetMedia);
    bytes := Lookup(d.s, DocumentRef(d.s.attempts[a].job.tx));
    assert Found(d.s, DocumentRef(job.tx)) == bytes.Some?;
    if bytes.Some? { GotNow(d.cfg, d.start, d.history, a, DocumentRef(job.tx), bytes.value); }
    hide WorkApply, Progress, Own, Got, Lookup, Legal, Final;
    Act(d, a, job, Getting, GetMedia);
  }

  method GetSelfieImage(d: Deployment, a: AttemptId, ghost job: Job, hasDocument: bool)
    returns (bytes: Option<Media>, ghost at: int)
    requires Running(d, a, job, GettingSelfie(hasDocument)) && job.phase.DocumentPhase?
    modifies d`s, d`history
    ensures d.history == old(d.history) + [Work(a, GetSelfie)] && bytes == Lookup(old(d.s), SelfieRef(job.tx))
    ensures bytes.Some? ==> Got(d.cfg, d.start, d.history, a, SelfieRef(job.tx), bytes.value)
    ensures if hasDocument && bytes.Some? then Running(d, a, job, Acquiring(at))
            else Leaves(d, a, job, Threw) && Plainly(d, a, job)
  {
    StepTo(d.cfg, d.s, a, GetSelfie);
    at := d.s.now;
    bytes := Lookup(d.s, SelfieRef(d.s.attempts[a].job.tx));
    assert Found(d.s, SelfieRef(job.tx)) == bytes.Some?;
    if bytes.Some? { GotNow(d.cfg, d.start, d.history, a, SelfieRef(job.tx), bytes.value); }
    hide WorkApply, Progress, Own, Left, Got, Lookup, Legal, Final;
    if hasDocument && bytes.Some? {
      Act(d, a, job, GettingSelfie(hasDocument), GetSelfie);
    } else {
      Leave(d, a, job, GettingSelfie(hasDocument), GetSelfie, Threw);
    }
  }

  /** decryptFrame(deserializeFrame(bytes)): a buffer with what was opened, or a throw. */
  method OpenImage(crypto: Crypto, bytes: Media) returns (image: Option<array<Base64.Byte>>)
    ensures var plain := Open(crypto.cipher, crypto.key, bytes);
            && (image.Some? <==> plain.Some?)
            && (image.Some? ==> fresh(image.value) && image.value[..] == plain.value)
  {
    var plain := Open(crypto.cipher, crypto.key, bytes);
    if plain.None? { return None; }
    var frame := new Base64.Byte[|plain.value|](i requires 0 <= i < |plain.value| => plain.value[i]);
    assert frame[..] == plain.value;
    return Some(frame);
  }

  /** verifier.verify is shown both images; the age is taken at the instant the answer is in. */
  method VerifyImages(d: Deployment, a: AttemptId, ghost job: Job, document: array<Base64.Byte>,
      selfie: array<Base64.Byte>)
    returns (check: DocumentCheck, at: int, ghost shown: (Base64.Bytes, Base64.Bytes))
    requires Running(d, a, job, Verifying)
    modifies d`s, d`history
    ensures d.history == old(d.history) + [Work(a, VerifyDocument(check))] && at == old(d.s.now)
    ensures Running(d, a, job, Deciding(check, at)) && shown == old((document[..], selfie[..]))
  {
    check := *;
    shown := (document[..], selfie[..]);
    StepTo(d.cfg, d.s, a, VerifyDocument(check));
    hide WorkApply, Progress, Own;
    at := d.s.now;
    Act(d, a, job, Verifying, VerifyDocument(check));
  }

  /** The verdict of a document check is that of the rule, with the configured face score and for a
      tenant that requires that age; it fits the record table, and shows no token. */
  predicate ByTheDocument(exit: Exit, minFaceMatch: real, age: int)
    requires exit.Verified?
  {
    && exit.v.basis.ByDocument? && exit.v.basis.minFaceMatch == minFaceMatch && exit.v.basis.cutoff == age as real
    && exit.v.status == (if DocumentPasses(exit.v.basis.check, age, minFaceMatch, exit.v.basis.at) then Aprovado
                         else Reprovado)
    && Storable(exit.v) && exit.token.None?
  }

  ghost predicate ImagesUnreadable(d: Deployment, a: AttemptId, tx: TxId, crypto: Crypto)
    reads d
  {
    Unreadable(d, a, DocumentRef(tx), crypto) || Unreadable(d, a, SelfieRef(tx), crypto)
  }

  lemma StayUnreadable(d: Deployment, before: seq<Event>, a: AttemptId, tx: TxId, crypto: Crypto)
    requires before <= d.history
    requires UnreadableIn(d.cfg, d.start, before, a, DocumentRef(tx), crypto)
             || UnreadableIn(d.cfg, d.start, before, a, SelfieRef(tx), crypto)
    ensures ImagesUnreadable(d, a, tx, crypto)
  {
    hide UnreadableIn;
    if UnreadableIn(d.cfg, d.start, before, a, DocumentRef(tx), crypto) {
      StaysUnreadable(d.cfg, d.start, before, d.history, a, DocumentRef(tx), crypto);
    } else {
      StaysUnreadable(d.cfg, d.start, before, d.history, a, SelfieRef(tx), crypto);
    }
  }

  lemma ImagesBlamed(d: Deployment, a: AttemptId, job: Job, crypto: Crypto, m: Media, n: Media)
    requires Got(d.cfg, d.start, d.history, a, DocumentRef(job.tx), m)
    requires Got(d.cfg, d.start, d.history, a, SelfieRef(job.tx), n)
    requires Deserved(d.cfg, d.start, d.history, a, job,
                      Open(crypto.cipher, crypto.key, m).Some? && Open(crypto.cipher, crypto.key, n).Some?)
    ensures Deserved(d.cfg, d.start, d.history, a, job, !ImagesUnreadable(d, a, job.tx, crypto))
  {
    hide Got, Open, Deserved;
    if Open(crypto.cipher, crypto.key, m).Some? && Open(crypto.cipher, crypto.key, n).Some? {
      DeservedAnyway(d.cfg, d.start, d.history, a, job, !ImagesUnreadable(d, a, job.tx, crypto));
    }
  }

  /** The try block of DocumentProcessor.process; the buffers live on after it. */
  method TryDocument(d: Deployment, a: AttemptId, ghost job: Job, crypto: Crypto)
    returns (exit: Exit, document: array<Base64.Byte>, selfie: array<Base64.Byte>,
             ghost shown: Option<(Base64.Bytes, Base64.Bytes)>)
    requires Running(d, a, job, Getting) && job.phase.DocumentPhase?
    modifies d
    ensures old(d.faults) <= d.faults && (exit.Died? ==> old(d.faults) < d.faults)
    ensures exit.Threw? && d.faults == old(d.faults) ==>
              Deserved(d.cfg, d.start, d.history, a, job, !ImagesUnreadable(d, a, job.tx, crypto))
    ensures old(d.history) <= d.history && Leaves(d, a, job, exit) && Accounted(d, a, job, exit)
    ensures exit.Verified? ==> shown.Some? && exists age :: ByTheDocument(exit, d.cfg.minFaceMatch, age)
    ensures fresh(document) && fresh(selfie)
    ensures shown.Some? ==>
              && ShownIn(d.cfg, d.start, d.history, a, DocumentRef(job.tx), crypto, shown.value.0)
              && ShownIn(d.cfg, d.start, d.history, a, SelfieRef(job.tx), crypto, shown.value.1)
              && |shown.value.0| == document.Length && |shown.value.1| == selfie.Length
  {
    hide Running, Delivered, Left, Founded, Storable, Got, Open, Deserved, Plainly, ImagesUnreadable, ByTheDocument;
    document, selfie, shown := new Base64.Byte[0], new Base64.Byte[0], None;
    var up;
    up, exit := Await(d, a, job, Getting);
    if !up { return; }
    var missing, docBytes, selfieBytes; ghost var gotAt: int;
    missing, docBytes, selfieBytes, gotAt := GetImages(d, a, job);
    if missing.Some? {
      if missing == Some(Threw) && d.faults == old(d.faults) {
        PlainlyBlamed(d, a, job, !ImagesUnreadable(d, a, job.tx, crypto));
      }
      return missing.value, document, selfie, None;
    }
    ghost var got := d.history;
    up, exit := Await(d, a, job, Acquiring(gotAt));
    if !up { return; }
    var first := AcquireOnce(d, a, job, gotAt);
    if !first { return Skipped, document, selfie, None; }
    exit, document, selfie, shown := CheckImages(d, a, job, crypto, docBytes, selfieBytes);
    LaterGot(d.cfg, d.start, got, d.history, a, DocumentRef(job.tx), docBytes);
    LaterGot(d.cfg, d.start, got, d.history, a, SelfieRef(job.tx), selfieBytes);
    if exit.Threw? && d.faults == old(d.faults) { ImagesBlamed(d, a, job, crypto, docBytes, selfieBytes); }
  }

  /** What follows the once-key: both images are opened, then judged. */
  method CheckImages(d: Deployment, a: AttemptId, ghost job: Job, crypto: Crypto, docBytes: Media, selfieBytes: Media)
    returns (exit: Exit, document: array<Base64.Byte>, selfie: array<Base64.Byte>,
             ghost shown: Option<(Base64.Bytes, Base64.Bytes)>)
    requires Running(d, a, job, Verifying) && job.phase.DocumentPhase?
    modifies d
    ensures old(d.faults) <= d.faults && (exit.Died? ==> old(d.faults) < d.faults)
    ensures exit.Threw? && d.faults == old(d.faults) ==>
              Deserved(d.cfg, d.start, d.history, a, job,
                       Open(crypto.cipher, crypto.key, docBytes).Some?
                       && Open(crypto.cipher, crypto.key, selfieBytes).Some?)
    ensures old(d.history) <= d.history && Leaves(d, a, job, exit) && Accounted(d, a, job, exit) && !exit.Skipped?
    ensures exit.Verified? ==> shown.Some? && exists age :: ByTheDocument(exit, d.cfg.minFaceMatch, age)
    ensures fresh(document) && fresh(selfie)
    ensures shown.Some? ==>
              && Open(crypto.cipher, crypto.key, docBytes) == Some(shown.value.0)
              && Open(crypto.cipher, crypto.key, selfieBytes) == Some(shown.value.1)
              && |shown.value.0| == document.Length && |shown.value.1| == selfie.Length
  {
    hide Running, Delivered, Left, Founded, Storable, Open, Accounted, Deserved, Plainly, ByTheDocument;
    document, selfie, shown := new Base64.Byte[0], new Base64.Byte[0], None;
    var docFrame := OpenImage(crypto, docBytes);
    var selfieFrame: Option<array<Base64.Byte>> := None;
    if docFrame.Some? {
      document := docFrame.value;
      selfieFrame := OpenImage(crypto, selfieBytes);
    }
    if selfieFrame.None? {
      Fail(d, a, job, Verifying, false);
      Accounts(d, a, job, Threw);
      return Threw, document, selfie, None;
    }
    selfie := selfieFrame.value;
    exit, shown := DecideAndDeliver(d, a, job, document, selfie);
    if exit.Threw? && d.faults == old(d.faults) { PlainlyBlamed(d, a, job, true); }
  }

  /** The verifier, the tenant's cutoff as it is then, the verdict. */
  method DecideAndDeliver(d: Deployment, a: AttemptId, ghost job: Job, document: array<Base64.Byte>,
      selfie: array<Base64.Byte>)
    returns (exit: Exit, ghost shown: Option<(Base64.Bytes, Base64.Bytes)>)
    requires Running(d, a, job, Verifying) && job.phase.DocumentPhase?
    modifies d
    ensures old(d.faults) <= d.faults && (exit.Died? ==> old(d.faults) < d.faults)
    ensures exit.Threw? && d.faults == old(d.faults) ==> Plainly(d, a, job)
    ensures old(d.history) <= d.history && Leaves(d, a, job, exit) && Accounted(d, a, job, exit) && !exit.Skipped?
    ensures exit.Verified? ==> shown.Some? && exists age :: ByTheDocument(exit, d.cfg.minFaceMatch, age)
    ensures shown.Some? ==> shown.value == old((document[..], selfie[..]))
  {
    hide Running, Delivered, AgeFromDocument, Left, Founded, Storable, Deserved, Plainly;
    shown := None;
    var up;
    up, exit := Await(d, a, job, Verifying);
    if !up { return; }
    var out, at; ghost var seen;
    out, at, seen := VerifyImages(d, a, job, document, selfie);
    shown := Some(seen);
    var ageFromDoc := AgeFromDocument(out.birth, at);
    up, exit := Await(d, a, job, Deciding(out, at));
    if !up { return; }
    var age := ReadRequiredAge(d, a, job, Deciding(out, at));
    if age.None? { return Threw, shown; }
    var effectiveCutoff := age.value as real;
    var status := DecideDocument(ageFromDoc, out, effectiveCutoff, d.cfg.minFaceMatch);
    DocumentApproval(out, age.value, d.cfg.minFaceMatch, at);
    var v := Verdict(status, ByDocument(out, at, effectiveCutoff, d.cfg.minFaceMatch));
    exit := WriteAndSend(d, a, job, v, None);
    if exit.Verified? { assert ByTheDocument(exit, d.cfg.minFaceMatch, age.value); }
  }

  /** DocumentProcessor.process, with the same promises as the face check, for two images. */
  method ProcessDocument(d: Deployment, a: AttemptId, job: Job, crypto: Crypto)
    returns (exit: Exit, document: array<Base64.Byte>, selfie: array<Base64.Byte>, ghost left: nat,
             ghost clean: seq<WorkEvent>, ghost shown: Option<(Base64.Bytes, Base64.Bytes)>)
    requires d.Valid() && a !in d.s.attempts && job in d.s.jobs && job.tx in d.s.trails && job.phase.DocumentPhase?
    modifies d
    ensures old(d.faults) <= d.faults && (exit.Died? ==> old(d.faults) < d.faults)
    ensures exit.Threw? && d.faults == old(d.faults) ==>
              left <= |d.history| && Deserved(d.cfg, d.start, d.history[..left], a, job,
                  !ImagesUnreadable(d, a, job.tx, crypto))
    ensures d.faults == old(d.faults) ==> clean == Deletes(job) + [Discard(true)]
    ensures old(d.history) <= d.history && Ended(d, a, job, exit, left, clean)
    ensures exit.Verified? ==> shown.Some? && exists age :: ByTheDocument(exit, d.cfg.minFaceMatch, age)
    ensures shown.Some? ==>
              && ShownIn(d.cfg, d.start, d.history, a, DocumentRef(job.tx), crypto, shown.value.0)
              && ShownIn(d.cfg, d.start, d.history, a, SelfieRef(job.tx), crypto, shown.value.1)
              && |shown.value.0| == document.Length && |shown.value.1| == selfie.Length
    ensures !exit.Died? ==>
              (forall i | 0 <= i < document.Length :: document[i] == 0)
              && (forall i | 0 <= i < selfie.Length :: selfie[i] == 0)
  {
    hide Delivered, Left, Founded, Own, Steps, Cleaned, Erased, Storable, Legal, Final, ShownIn, ByTheDocument;
    hide UnreadableIn, Deserved, Deletes;
    PickUp(d, a, job);
    exit, document, selfie, shown := TryDocument(d, a, job, crypto);
    ghost var before := d.history;
    if exit.Died? {
      left, clean := |d.history|, [];
      DiedThere(d, a, job);
    } else {
      Zero(document);
      Zero(selfie);
      ghost var readable := !ImagesUnreadable(d, a, job.tx, crypto);
      left, clean := Finish(d, a, DocumentPhase, job, exit);
      assert d.history[..left] == before;
      if !readable { StayUnreadable(d, before, a, job.tx, crypto); }
      if exit.Threw? && d.faults == old(d.faults) {
        StaysDeserved(d.cfg, d.start, before, a, job, readable, !ImagesUnreadable(d, a, job.tx, crypto));
      }
      if shown.Some? {
        ShownStays(d.cfg, d.start, before, d.history, a, DocumentRef(job.tx), crypto, shown.value.0);
        ShownStays(d.cfg, d.start, before, d.history, a, SelfieRef(job.tx), crypto, shown.value.1);
      }
    }
  }
}
