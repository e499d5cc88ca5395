/** What can still be done from a state: runs that go on, one step of one participant at a time. */
module PipelineMoves {
  import opened Wrappers
  import opened Sets
  import opened Decision
  import opened Pipeline
  import opened PipelineTheorems
  import opened PipelineAnyRun
  import Redis

  /** A run from empty tables that ends in s, and is timely if that is asked for. */
  ghost predicate Goes(cfg: Settings, s0: State, run: seq<Event>, s: State, timely: bool) {
    FromStart(s0) && Legal(cfg, s0, run) && Final(cfg, s0, run) == s && (timely ==> TimelyRun(cfg, s0, run))
  }

  lemma GoOn(cfg: Settings, s0: State, run: seq<Event>, s: State, timely: bool, e: Event)
    returns (longer: seq<Event>, t: State)
    requires Goes(cfg, s0, run, s, timely) && Enabled(cfg, s, e) && (timely ==> Timely(cfg, s, e))
    ensures Goes(cfg, s0, longer, t, timely) && t == Apply(cfg, s, e) && longer == run + [e]
  {
    hide Enabled, Apply, Timely;
    longer, t := run + [e], Apply(cfg, s, e);
    assert Front(longer) == run;
  }

  /** Attempt a of that job stands there. */
  predicate Stands(s: State, a: AttemptId, job: Job, pc: Pc) {
    At(s, a) && s.attempts[a] == Attempt(job, pc)
  }

  // ----- up to the once-key -----

  /** Both images of the job, or its one frame, are there. */
  predicate ImagesFound(s: State, job: Job) {
    Found(s, MainRef(job)) && Found(s, LastRef(job))
  }

  lemma StartStands(cfg: Settings, s: State, a: AttemptId, job: Job)
    requires a !in s.attempts && job in s.jobs && job.tx in s.trails
    ensures var e := Work(a, Start(job));
            Enabled(cfg, s, e) && Apply(cfg, s, e) == DoStart(s, a, job) && Stands(DoStart(s, a, job), a, job, Getting)
  {
  }

  lemma GetStands(cfg: Settings, s: State, a: AttemptId, job: Job)
    requires Stands(s, a, job, Getting) && ImagesFound(s, job)
    ensures var e := Work(a, GetMedia);
            && Enabled(cfg, s, e) && Apply(cfg, s, e) == DoGet(s, a)
            && Stands(DoGet(s, a), a, job, if job.phase.FacePhase? then Acquiring(s.now) else GettingSelfie(true))
            && Found(DoGet(s, a), LastRef(job)) && DoGet(s, a).now == s.now
            && DoGet(s, a).holders == s.holders && DoGet(s, a).once == s.once
  {
  }

  lemma GetSelfieStands(cfg: Settings, s: State, a: AttemptId, job: Job)
    requires Stands(s, a, job, GettingSelfie(true)) && Found(s, SelfieRef(job.tx))
    ensures var e := Work(a, GetSelfie);
            && Enabled(cfg, s, e) && Apply(cfg, s, e) == DoGetSelfie(s, a)
            && Stands(DoGetSelfie(s, a), a, job, Acquiring(s.now)) && DoGetSelfie(s, a).now == s.now
            && DoGetSelfie(s, a).holders == s.holders && DoGetSelfie(s, a).once == s.once
  {
  }

  lemma AcquireStands(cfg: Settings, s: State, a: AttemptId, job: Job, at: int)
    requires Stands(s, a, job, Acquiring(at)) && !Redis.Live(s.once, job, s.now)
    ensures var e := Work(a, Acquire);
            && Enabled(cfg, s, e) && Apply(cfg, s, e) == DoAcquire(cfg, s, a)
            && Stands(DoAcquire(cfg, s, a), a, job, if job.phase.FacePhase? then Scoping else Verifying)
  {
  }

  /** A second image that can still be read is read. */
  lemma ReadsSelfie(cfg: Settings, s0: State, run: seq<Event>, s: State, timely: bool, a: AttemptId, job: Job)
    returns (longer: seq<Event>, t: State)
    requires Goes(cfg, s0, run, s, timely) && Stands(s, a, job, GettingSelfie(true)) && Found(s, SelfieRef(job.tx))
    ensures Goes(cfg, s0, longer, t, timely) && run <= longer && Stands(t, a, job, Acquiring(t.now))
    ensures t.now == s.now && t.holders == s.holders && t.once == s.once
  {
    GetSelfieStands(cfg, s, a, job);
    hide Goes, Enabled, Apply, Stands, Found, DoGetSelfie;
    longer, t := GoOn(cfg, s0, run, s, timely, Work(a, GetSelfie));
  }

  /** While the images are there, a new attempt can read them. */
  lemma ReadsImages(cfg: Settings, s0: State, run: seq<Event>, s: State, timely: bool, job: Job)
    returns (longer: seq<Event>, t: State, a: AttemptId)
    requires Goes(cfg, s0, run, s, timely) && job in s.jobs && job.tx in s.trails && ImagesFound(s, job)
    ensures Goes(cfg, s0, longer, t, timely) && run <= longer && Stands(t, a, job, Acquiring(t.now))
    ensures t.now == s.now && t.holders == s.holders && t.once == s.once
  {
    SomeNatIsNew(s.attempts.Keys);
    a :| a !in s.attempts;
    StartStands(cfg, s, a, job);
    assert ImagesFound(DoStart(s, a, job), job);
    hide Goes, Enabled, Apply, Stands, ImagesFound, Found, DoGet;
    longer, t := GoOn(cfg, s0, run, s, timely, Work(a, Start(job)));
    GetStands(cfg, t, a, job);
    longer, t := GoOn(cfg, s0, longer, t, timely, Work(a, GetMedia));
    if job.phase.DocumentPhase? {
      var more;
      more, t := ReadsSelfie(cfg, s0, longer, t, timely, a, job);
      longer := more;
    }
  }

  lemma KeyIsSpaced(cfg: Settings, s0: State, run: seq<Event>, s: State, timely: bool, job: Job)
    requires Goes(cfg, s0, run, s, timely)
    ensures Spaced(cfg, s, job)
  {
    AcquiresSpaced(cfg, s0, run, job);
  }

  /** After a wait the key has run out. */
  lemma TickStands(cfg: Settings, s: State, a: AttemptId, job: Job, pc: Pc)
    requires Stands(s, a, job, pc) && Spaced(cfg, s, job)
    ensures HoldersOf(s, job) == [] ==> !Redis.Live(s.once, job, s.now)
    ensures Redis.Live(s.once, job, s.now) ==>
              && s.once[job].expiresAt.Some? && s.once[job].expiresAt.value > s.now
              && var e := Tick(s.once[job].expiresAt.value - s.now);
              && Enabled(cfg, s, e) && Stands(Apply(cfg, s, e), a, job, pc)
              && !Redis.Live(Apply(cfg, s, e).once, job, Apply(cfg, s, e).now)
  {
  }

  /** Without a bound the attempt can wait until the key has run out. */
  lemma WaitsForKey(cfg: Settings, s0: State, run: seq<Event>, s: State, a: AttemptId, job: Job, pc: Pc)
    returns (longer: seq<Event>, t: State)
    requires Goes(cfg, s0, run, s, false) && Stands(s, a, job, pc)
    ensures Goes(cfg, s0, longer, t, false) && run <= longer
    ensures Stands(t, a, job, pc) && !Redis.Live(t.once, job, t.now)
  {
    KeyIsSpaced(cfg, s0, run, s, false, job);
    TickStands(cfg, s, a, job, pc);
    hide Goes, Stands, Enabled, Apply, Spaced;
    longer, t := run, s;
    if Redis.Live(s.once, job, s.now) {
      longer, t := GoOn(cfg, s0, run, s, false, Tick(s.once[job].expiresAt.value - s.now));
    }
  }

  lemma AcquireInTime(cfg: Settings, s: State, a: AttemptId, job: Job, at: int)
    requires Stands(s, a, job, Acquiring(at)) && s.now - at <= Slack(cfg)
    ensures Timely(cfg, s, Work(a, Acquire))
  {
  }

  /** In time, and with nobody on the key, the attempt gets it. */
  lemma Acquires(cfg: Settings, s0: State, run: seq<Event>, s: State, timely: bool, a: AttemptId, job: Job, at: int)
    returns (longer: seq<Event>, t: State)
    requires Goes(cfg, s0, run, s, timely) && Stands(s, a, job, Acquiring(at))
    requires timely ==> HoldersOf(s, job) == [] && s.now - at <= Slack(cfg)
    ensures Goes(cfg, s0, longer, t, timely) && run <= longer
    ensures Stands(t, a, job, if job.phase.FacePhase? then Scoping else Verifying)
  {
    hide Goes, Enabled, Apply, Stands, DoAcquire, Spaced, HoldersOf, Redis.Live, Slack, Timely;
    longer, t := run, s;
    if timely {
      KeyIsSpaced(cfg, s0, run, s, timely, job);
      TickStands(cfg, s, a, job, Acquiring(at));
      AcquireInTime(cfg, s, a, job, at);
    } else {
      longer, t := WaitsForKey(cfg, s0, run, s, a, job, Acquiring(at));
    }
    AcquireStands(cfg, t, a, job, at);
    var more;
    more, t := GoOn(cfg, s0, longer, t, timely, Work(a, Acquire));
    longer := more;
  }

  // ----- a face check from the once-key to its verdict -----

  lemma TenantStands(cfg: Settings, s: State, a: AttemptId, job: Job, pc: Pc)
    requires Stands(s, a, job, pc) && (pc.Scoping? || pc.Deciding?) && s.jobs[job] in s.requiredAge
    ensures var e := Work(a, ReadTenant);
            && Enabled(cfg, s, e) && Stands(Apply(cfg, s, e), a, job, AfterTenant(cfg, pc, s.requiredAge[s.jobs[job]]))
  {
    hide AfterTenant;
    assert Apply(cfg, s, Work(a, ReadTenant)) == DoReadTenant(cfg, s, a);
  }

  /** A tenant may require any age when it is read, so it can be 18. */
  lemma ReadsTenant(cfg: Settings, s0: State, run: seq<Event>, s: State, timely: bool, a: AttemptId, job: Job, pc: Pc)
    returns (longer: seq<Event>, t: State)
    requires Goes(cfg, s0, run, s, timely) && Stands(s, a, job, pc) && (pc.Scoping? || pc.Deciding?)
    ensures Goes(cfg, s0, longer, t, timely) && run <= longer && Stands(t, a, job, AfterTenant(cfg, pc, 18))
  {
    var e := SetRequiredAge(s.jobs[job], 18);
    assert Stands(Apply(cfg, s, e), a, job, pc) && Apply(cfg, s, e).jobs == s.jobs;
    hide Goes, Stands, AfterTenant, WorkApply, WorkEnabled;
    longer, t := GoOn(cfg, s0, run, s, timely, e);
    TenantStands(cfg, t, a, job, pc);
    hide Enabled, Apply;
    var more;
    more, t := GoOn(cfg, s0, longer, t, timely, Work(a, ReadTenant));
    longer := more;
  }

  function FaceOutcome(r: AgeResult, c: Config): Verdict {
    Verdict(DecideVerification(r, c), ByFace(r, c))
  }

  /** The provider may answer anything. */
  lemma Answers(cfg: Settings, s0: State, run: seq<Event>, s: State, timely: bool, a: AttemptId, job: Job, c: Config,
      r: AgeResult)
    returns (longer: seq<Event>, t: State)
    requires Goes(cfg, s0, run, s, timely) && Stands(s, a, job, Analyzing(c))
    ensures Goes(cfg, s0, longer, t, timely) && run <= longer
    ensures var v := FaceOutcome(r, c);
            Stands(t, a, job, if v.status == DocumentoRequerido then Issuing(v) else Auditing(v, None))
  {
    AnalyzeStands(cfg, s, a, job, c, r);
    hide Goes, Enabled, Apply, Stands, FaceOutcome;
    longer, t := GoOn(cfg, s0, run, s, timely, Work(a, Analyze(r)));
  }

  lemma AnalyzeStands(cfg: Settings, s: State, a: AttemptId, job: Job, c: Config, r: AgeResult)
    requires Stands(s, a, job, Analyzing(c))
    ensures var e, v := Work(a, Analyze(r)), FaceOutcome(r, c);
            && Enabled(cfg, s, e)
            && Stands(Apply(cfg, s, e), a, job, if v.status == DocumentoRequerido then Issuing(v)
                  else Auditing(v, None))
  {
    hide DecideVerification;
    assert Apply(cfg, s, Work(a, Analyze(r))) == DoAnalyze(s, a, r);
  }

  /** A token is drawn that was never drawn before. */
  lemma Issues(cfg: Settings, s0: State, run: seq<Event>, s: State, timely: bool, a: AttemptId, job: Job, v: Verdict)
    returns (longer: seq<Event>, t: State, k: Token)
    requires Goes(cfg, s0, run, s, timely) && Stands(s, a, job, Issuing(v))
    ensures Goes(cfg, s0, longer, t, timely) && run <= longer && Stands(t, a, job, Auditing(v, Some(k)))
    ensures k in t.documentSessions && t.documentSessions[k].tx == job.tx && t.documentSessions[k].createdAt == t.now
  {
    SomeNatIsNew(s.tokens);
    k :| k !in s.tokens;
    IssueStands(cfg, s, a, job, v, k);
    hide Goes, Enabled, Apply, Stands;
    longer, t := GoOn(cfg, s0, run, s, timely, Work(a, IssueToken(k)));
  }

  lemma IssueStands(cfg: Settings, s: State, a: AttemptId, job: Job, v: Verdict, k: Token)
    requires Stands(s, a, job, Issuing(v)) && k !in s.tokens
    ensures var e := Work(a, IssueToken(k));
            && Enabled(cfg, s, e) && Stands(Apply(cfg, s, e), a, job, Auditing(v, Some(k)))
            && var t := Apply(cfg, s, e);
               && t.documentSessions == s.documentSessions[k := DocumentSession(s.jobs[job], job.tx, s.now)]
               && t.now == s.now && k in t.tokens
  {
    assert Apply(cfg, s, Work(a, IssueToken(k))) == DoIssue(s, a, k);
  }

  // ----- a document check from the once-key to its verdict -----

  lemma VerifyStands(cfg: Settings, s: State, a: AttemptId, job: Job, check: DocumentCheck)
    requires Stands(s, a, job, Verifying)
    ensures var e := Work(a, VerifyDocument(check));
            Enabled(cfg, s, e) && Stands(Apply(cfg, s, e), a, job, Deciding(check, s.now))
  {
  }

  // ----- rows and webhook -----

  /** The audit row is written, and nothing else that matters here changes. */
  lemma Audits(cfg: Settings, s0: State, run: seq<Event>, s: State, timely: bool, a: AttemptId, job: Job, v: Verdict,
      token: Option<Token>)
    returns (longer: seq<Event>, t: State)
    requires Goes(cfg, s0, run, s, timely) && Stands(s, a, job, Auditing(v, token))
    ensures Goes(cfg, s0, longer, t, timely) && run <= longer && Stands(t, a, job, Recording(v, token))
    ensures job.tx in t.trails && v in t.trails[job.tx].audits
    ensures t.now == s.now && t.documentSessions == s.documentSessions
  {
    AuditStands(cfg, s, a, job, v, token);
    hide Goes, Enabled, Apply, Stands;
    longer, t := GoOn(cfg, s0, run, s, timely, Work(a, WriteAudit));
  }

  lemma AuditStands(cfg: Settings, s: State, a: AttemptId, job: Job, v: Verdict, token: Option<Token>)
    requires Stands(s, a, job, Auditing(v, token))
    ensures var e := Work(a, WriteAudit);
            && Enabled(cfg, s, e) && Stands(Apply(cfg, s, e), a, job, Recording(v, token))
            && var t := Apply(cfg, s, e);
               && job.tx in t.trails && v in t.trails[job.tx].audits
               && t.now == s.now && t.documentSessions == s.documentSessions
  {
    assert Apply(cfg, s, Work(a, WriteAudit)) == DoAudit(s, a);
  }

  lemma RecordStands(cfg: Settings, s: State, a: AttemptId, job: Job, v: Verdict, token: Option<Token>)
    requires Stands(s, a, job, Recording(v, token)) && Storable(v)
    ensures var e := Work(a, WriteRecord);
            && Enabled(cfg, s, e) && Stands(Apply(cfg, s, e), a, job, Dispatching(v, token, 0))
            && var t := Apply(cfg, s, e); t.now == s.now && t.documentSessions == s.documentSessions
  {
    hide Storable;
    assert Apply(cfg, s, Work(a, WriteRecord)) == DoRecord(s, a);
  }

  lemma SendShows(cfg: Settings, s: State, a: AttemptId, job: Job, v: Verdict, k: Token, tries: int)
    requires Stands(s, a, job, Dispatching(v, Some(k), tries)) && tries <= cfg.retries
    ensures var e := Work(a, Send(true));
            && Enabled(cfg, s, e) && Revealed(Apply(cfg, s, e), job.tx, k)
            && var t := Apply(cfg, s, e); t.now == s.now && t.documentSessions == s.documentSessions
  {
    var t := DoSend(cfg, s, a, true);
    assert Apply(cfg, s, Work(a, Send(true))) == t;
    var sent := t.trails[job.tx].sent;
    assert sent[|sent| - 1].token == Some(k);
  }
}
