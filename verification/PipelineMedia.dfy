/** Which bytes lie behind a media ref: those of the last put, and of the only one for a frame. In
    every legal run. */
module PipelineMedia {
  import opened Wrappers
  import opened Decision
  import opened Pipeline
  import opened PipelineTheorems
  import opened PipelineAnyRun
  import opened FrameCrypto
  import Base64
  import FrameCodec
  import FrameStore
  import SecretCrypto

  /** What a step puts under the ref, if anything. */
  function PutBy(s: State, e: Event, ref: Ref): Option<Media> {
    if !e.Http? || e.r !in s.requests then None
    else
      var q := s.requests[e.r];
      match e.h
      case PutFrame(m) => if q.Admitted? && ref == FrameRef(q.tx) then Some(m) else None
      case PutDocument(m) => if q.DocumentAdmitted? && ref == DocumentRef(q.tx) then Some(m) else None
      case PutSelfie(m) => if q.DocumentStored? && ref == SelfieRef(q.tx) then Some(m) else None
      case _ => None
  }

  /** What was put under the ref last. */
  function LastPut(cfg: Settings, s0: State, run: seq<Event>, ref: Ref): Option<Media>
    requires Legal(cfg, s0, run)
    decreases |run|
  {
    if run == [] then None
    else
      var now := PutBy(Final(cfg, s0, Front(run)), run[|run| - 1], ref);
      if now.Some? then now else LastPut(cfg, s0, Front(run), ref)
  }

  /** What is stored under the ref, if anything, is that, good for the time to live from when it was put. */
  predicate Keeps(cfg: Settings, s: State, ref: Ref, m: Option<Media>) {
    && (m.Some? ==> ref in s.puts)
    && (ref in s.store ==>
          && m == Some(s.store[ref].data) && ref in s.puts
          && s.store[ref].expiresAtMs == s.puts[ref] + cfg.frameTtlSeconds * 1000)
  }

  lemma HttpKeeps(cfg: Settings, s: State, r: RequestId, h: HttpEvent, ref: Ref, m: Option<Media>)
    requires HttpEnabled(cfg, s, r, h) && Keeps(cfg, s, ref, m)
    ensures var now := PutBy(s, Http(r, h), ref); Keeps(cfg, HttpApply(cfg, s, r, h), ref, if now.Some? then now else m)
  {
  }

  lemma WorkKeeps(cfg: Settings, s: State, a: AttemptId, w: WorkEvent, ref: Ref, m: Option<Media>)
    requires WorkEnabled(cfg, s, a, w) && Keeps(cfg, s, ref, m)
    ensures Keeps(cfg, WorkApply(cfg, s, a, w), ref, m)
  {
    match w
    case GetMedia => assert DoGet(s, a).puts == s.puts;
    case GetSelfie => assert DoGetSelfie(s, a).puts == s.puts;
    case Delete => assert DoDelete(s, a).puts == s.puts;
    case DeleteSelfie => assert DoDeleteSelfie(s, a).puts == s.puts;
    case _ => StoreUnmoved(cfg, s, a, w);
  }

  lemma {:induction false} StoredIsLastPut(cfg: Settings, s0: State, run: seq<Event>, ref: Ref)
    requires FromStart(s0) && Legal(cfg, s0, run)
    ensures Keeps(cfg, Final(cfg, s0, run), ref, LastPut(cfg, s0, run, ref))
    decreases |run|
  {
    if run != [] {
      StoredIsLastPut(cfg, s0, Front(run), ref);
      hide WorkApply, WorkEnabled, HttpApply, HttpEnabled;
      var s, m := Final(cfg, s0, Front(run)), LastPut(cfg, s0, Front(run), ref);
      match run[|run| - 1]
      case Http(r, h) => HttpKeeps(cfg, s, r, h, ref, m);
      case Work(a, w) => WorkKeeps(cfg, s, a, w, ref, m);
      case _ =>
    }
  }

  // ----- what can be found -----

  /** The step deletes what is stored under the ref. */
  predicate DeletesRef(s: State, e: Event, ref: Ref) {
    e.Work? && e.a in s.attempts
    && var job := s.attempts[e.a].job;
       (e.w.Delete? && ref == MainRef(job)) || (e.w.DeleteSelfie? && ref == SelfieRef(job.tx))
  }

  /** An image, and when it was put. */
  datatype Held = Held(m: Media, at: int)

  /** What was put under the ref last, unless it was deleted since. */
  function HeldBy(cfg: Settings, s0: State, run: seq<Event>, ref: Ref): Option<Held>
    requires Legal(cfg, s0, run)
    decreases |run|
  {
    if run == [] then None
    else
      var s, e := Final(cfg, s0, Front(run)), run[|run| - 1];
      var now := PutBy(s, e, ref);
      if now.Some? then Some(Held(now.value, s.now))
      else if DeletesRef(s, e, ref) then None
      else HeldBy(cfg, s0, Front(run), ref)
  }

  /** The entry under the ref is what is held; where there is none, nothing is held, or no longer good. */
  predicate StillHolds(cfg: Settings, s: State, ref: Ref, h: Option<Held>) {
    if ref in s.store then
      h.Some? && s.store[ref] == FrameStore.Entry(h.value.m, h.value.at + cfg.frameTtlSeconds * 1000)
    else h.Some? ==> h.value.at + cfg.frameTtlSeconds * 1000 <= s.now
  }

  lemma HttpHolds(cfg: Settings, s: State, r: RequestId, h: HttpEvent, ref: Ref, held: Option<Held>)
    requires HttpEnabled(cfg, s, r, h) && StillHolds(cfg, s, ref, held)
    ensures var now := PutBy(s, Http(r, h), ref);
            StillHolds(cfg, HttpApply(cfg, s, r, h), ref, if now.Some? then Some(Held(now.value, s.now)) else held)
  {
  }

  lemma WorkHolds(cfg: Settings, s: State, a: AttemptId, w: WorkEvent, ref: Ref, held: Option<Held>)
    requires WorkEnabled(cfg, s, a, w) && StillHolds(cfg, s, ref, held)
    ensures StillHolds(cfg, WorkApply(cfg, s, a, w), ref, if DeletesRef(s, Work(a, w), ref) then None else held)
  {
    hide WorkApply, WorkEnabled;
    if w.Delete? || w.DeleteSelfie? {
      DeleteHolds(cfg, s, a, w, ref, held);
    } else if w.GetMedia? || w.GetSelfie? {
      GetHolds(cfg, s, a, w, ref, held);
    } else {
      ClockStays(cfg, s, a, w);
      StoreUnmoved(cfg, s, a, w);
    }
  }

  lemma ClockStays(cfg: Settings, s: State, a: AttemptId, w: WorkEvent)
    requires WorkEnabled(cfg, s, a, w)
    ensures WorkApply(cfg, s, a, w).now == s.now
  {
    hide AfterTenant, DecideVerification, Found, Storable;
  }

  lemma GetHolds(cfg: Settings, s: State, a: AttemptId, w: WorkEvent, ref: Ref, held: Option<Held>)
    requires WorkEnabled(cfg, s, a, w) && (w.GetMedia? || w.GetSelfie?) && StillHolds(cfg, s, ref, held)
    ensures StillHolds(cfg, WorkApply(cfg, s, a, w), ref, held)
  {
    if w.GetMedia? {
      ReadHolds(cfg, s, DoGet(s, a), MainRef(s.attempts[a].job), ref, held);
    } else {
      ReadHolds(cfg, s, DoGetSelfie(s, a), SelfieRef(s.attempts[a].job.tx), ref, held);
    }
    hide DoGet, DoGetSelfie, StillHolds;
  }

  lemma DeleteHolds(cfg: Settings, s: State, a: AttemptId, w: WorkEvent, ref: Ref, held: Option<Held>)
    requires WorkEnabled(cfg, s, a, w) && (w.Delete? || w.DeleteSelfie?) && StillHolds(cfg, s, ref, held)
    ensures StillHolds(cfg, WorkApply(cfg, s, a, w), ref, if DeletesRef(s, Work(a, w), ref) then None else held)
  {
    if w.Delete? {
      assert WorkApply(cfg, s, a, w) == DoDelete(s, a);
    } else {
      assert WorkApply(cfg, s, a, w) == DoDeleteSelfie(s, a);
    }
  }

  /** A get evicts what is no longer good, and nothing else. */
  lemma ReadHolds(cfg: Settings, s: State, t: State, read: Ref, ref: Ref, held: Option<Held>)
    requires StillHolds(cfg, s, ref, held) && t.now == s.now && t.store == FrameStore.AfterGet(s.store, read, s.now)
    ensures StillHolds(cfg, t, ref, held)
  {
  }

  lemma {:induction false} RunHolds(cfg: Settings, s0: State, run: seq<Event>, ref: Ref)
    requires FromStart(s0) && Legal(cfg, s0, run)
    ensures StillHolds(cfg, Final(cfg, s0, run), ref, HeldBy(cfg, s0, run, ref))
    decreases |run|
  {
    if run != [] {
      RunHolds(cfg, s0, Front(run), ref);
      hide WorkApply, WorkEnabled, HttpApply, HttpEnabled, PutBy;
      var s, h := Final(cfg, s0, Front(run)), HeldBy(cfg, s0, Front(run), ref);
      match run[|run| - 1]
      case Http(r, e) => HttpHolds(cfg, s, r, e, ref, h);
      case Work(a, w) =>
        assert PutBy(s, Work(a, w), ref) == None by { NoPut(s, Work(a, w), ref); }
        WorkHolds(cfg, s, a, w, ref, h);
      case _ => NoPut(s, run[|run| - 1], ref);
    }
  }

  lemma NoPut(s: State, e: Event, ref: Ref)
    requires !e.Http?
    ensures PutBy(s, e, ref) == None
  {
  }

  /** store.get finds exactly what was put last, if it was not deleted since and its time to live, counted
      from the put, is not over. In every legal run. */
  lemma FoundExactly(cfg: Settings, s0: State, run: seq<Event>, ref: Ref)
    requires FromStart(s0) && Legal(cfg, s0, run)
    ensures var s, h := Final(cfg, s0, run), HeldBy(cfg, s0, run, ref);
            FrameStore.Lookup(s.store, ref, s.now)
            == if h.Some? && s.now < h.value.at + cfg.frameTtlSeconds * 1000 then Some(h.value.m) else None
  {
    RunHolds(cfg, s0, run, ref);
    hide Legal, Final, HeldBy;
  }

  /** A frame is put once: what was put first stays what was put last. */
  lemma {:induction false} FramePutOnce(cfg: Settings, s0: State, run: seq<Event>, k: nat, tx: TxId)
    requires FromStart(s0) && Legal(cfg, s0, run) && k <= |run| && Legal(cfg, s0, run[..k])
    requires LastPut(cfg, s0, run[..k], FrameRef(tx)).Some?
    ensures LastPut(cfg, s0, run, FrameRef(tx)) == LastPut(cfg, s0, run[..k], FrameRef(tx))
    decreases |run|
  {
    if k == |run| {
      assert run[..k] == run;
    } else {
      assert Front(run)[..k] == run[..k];
      FramePutOnce(cfg, s0, Front(run), k, tx);
      StoredIsLastPut(cfg, s0, Front(run), FrameRef(tx));
      RunRooted(cfg, s0, Front(run));
      hide Enabled, Apply;
      NotPutAgain(Final(cfg, s0, Front(run)), run[|run| - 1], tx);
    }
  }

  lemma NotPutAgain(s: State, e: Event, tx: TxId)
    requires Rooted(s) && FrameRef(tx) in s.puts
    ensures PutBy(s, e, FrameRef(tx)).None?
  {
    if e.Http? && e.r in s.requests { assert RequestRooted(s, e.r, s.requests[e.r]); }
  }

  // ----- what an attempt finds -----

  /** Event i is a store.get of attempt a that finds m under the ref. */
  predicate GotAt(cfg: Settings, s0: State, run: seq<Event>, i: int, a: AttemptId, ref: Ref, m: Media) {
    && 0 <= i < |run| && Legal(cfg, s0, run[..i])
    && run[i] == Work(a, if ref.SelfieRef? then GetSelfie else GetMedia)
    && var s := Final(cfg, s0, run[..i]); FrameStore.Lookup(s.store, ref, s.now) == Some(m)
  }

  ghost predicate Got(cfg: Settings, s0: State, run: seq<Event>, a: AttemptId, ref: Ref, m: Media) {
    exists i :: GotAt(cfg, s0, run, i, a, ref, m)
  }

  lemma LaterGot(cfg: Settings, s0: State, run: seq<Event>, longer: seq<Event>, a: AttemptId, ref: Ref, m: Media)
    requires Got(cfg, s0, run, a, ref, m) && run <= longer
    ensures Got(cfg, s0, longer, a, ref, m)
  {
    hide Legal, Final;
    var i :| GotAt(cfg, s0, run, i, a, ref, m);
    assert longer[..i] == run[..i];
    assert GotAt(cfg, s0, longer, i, a, ref, m);
  }

  lemma GotNow(cfg: Settings, s0: State, run: seq<Event>, a: AttemptId, ref: Ref, m: Media)
    requires Legal(cfg, s0, run)
    requires var s := Final(cfg, s0, run); FrameStore.Lookup(s.store, ref, s.now) == Some(m)
    ensures Got(cfg, s0, run + [Work(a, if ref.SelfieRef? then GetSelfie else GetMedia)], a, ref, m)
  {
    hide Legal, Final;
    var longer := run + [Work(a, if ref.SelfieRef? then GetSelfie else GetMedia)];
    assert longer[..|run|] == run;
    assert GotAt(cfg, s0, longer, |run|, a, ref, m);
  }

  /** Whatever frame of a transaction an attempt has got is the one that was put for it. */
  lemma GotFrameWasPut(cfg: Settings, s0: State, run: seq<Event>, a: AttemptId, tx: TxId, m: Media)
    requires FromStart(s0) && Legal(cfg, s0, run) && Got(cfg, s0, run, a, FrameRef(tx), m)
    ensures LastPut(cfg, s0, run, FrameRef(tx)) == Some(m)
  {
    var i :| GotAt(cfg, s0, run, i, a, FrameRef(tx), m);
    StoredIsLastPut(cfg, s0, run[..i], FrameRef(tx));
    hide Legal, Final;
    FramePutOnce(cfg, s0, run, i, tx);
  }

  /** What was shown is what the attempt found under the ref, opened. */
  ghost predicate ShownIn(cfg: Settings, start: State, run: seq<Event>, a: AttemptId, ref: Ref, crypto: Crypto,
      shown: Base64.Bytes)
  {
    exists m :: Got(cfg, start, run, a, ref, m) && Open(crypto.cipher, crypto.key, m) == Some(shown)
  }

  lemma ShownStays(cfg: Settings, start: State, run: seq<Event>, longer: seq<Event>, a: AttemptId, ref: Ref,
      crypto: Crypto, shown: Base64.Bytes)
    requires run <= longer && ShownIn(cfg, start, run, a, ref, crypto, shown)
    ensures ShownIn(cfg, start, longer, a, ref, crypto, shown)
  {
    hide Got, Open;
    var m :| Got(cfg, start, run, a, ref, m) && Open(crypto.cipher, crypto.key, m) == Some(shown);
    LaterGot(cfg, start, run, longer, a, ref, m);
  }

  /** Whoever is shown the frame of a transaction is shown the image that was sealed into it. */
  lemma SubmittedIsShown(cfg: Settings, start: State, run: seq<Event>, a: AttemptId, tx: TxId, crypto: Crypto,
      iv: Base64.Bytes, plain: Base64.Bytes, shown: Base64.Bytes)
    requires FromStart(start) && Legal(cfg, start, run) && SecretCrypto.Lawful(crypto.cipher)
    requires LastPut(cfg, start, run, FrameRef(tx))
             == Some(FrameCodec.SerializeFrame(EncryptFrame(crypto.cipher, crypto.key, iv, plain)))
    requires ShownIn(cfg, start, run, a, FrameRef(tx), crypto, shown)
    ensures shown == plain
  {
    hide Got, Open, Legal, Final, LastPut, FrameCodec.SerializeFrame, EncryptFrame;
    var m :| Got(cfg, start, run, a, FrameRef(tx), m) && Open(crypto.cipher, crypto.key, m) == Some(shown);
    GotFrameWasPut(cfg, start, run, a, tx, m);
    OpenBack(crypto.cipher, crypto.key, iv, plain);
  }
}
