/** The request handlers as code: opening a session against quota, submitting a frame, and
    submitting a document. Every step is one event of the protocol. */
module Handlers {
  import opened Wrappers
  import opened Pipeline
  import opened PipelineAnyRun
  import opened PipelineDeadlines
  import opened PipelineMedia
  import opened PipelinePaths
  import opened PipelineTheorems
  import opened Runtime
  import Base64
  import opened FrameCrypto
  import FrameCodec
  import opened SecretCrypto
  import opened Calendar
  import Quota
  import opened Sets
  import Redis
  import Text

  datatype Reason =
    | Malformed | InvalidToken | Expired
    | PiiField | NoUserHash | NoPolicyVersion | NoConsent

  datatype Response =
    | BadRequest(why: Reason)
    | PaymentRequired
    | NotFound                  // no such tenant
    | Accepted(tx: TxId)
    | Created(token: Token)
    | Unanswered                // the handler threw or died between two awaits

  /** Request r stands at q in a legal run, and has taken exactly those steps. */
  ghost predicate Serving(d: Deployment, r: RequestId, q: Request, did: seq<HttpEvent>)
    reads d
  {
    d.Valid() && r in d.s.requests && d.s.requests[r] == q && Own(d.history, Handler(r)) == HttpSteps(r, did)
  }

  /** Request r has taken no step yet. */
  ghost predicate Unserved(d: Deployment, r: RequestId)
    reads d
  {
    d.Valid() && r !in d.s.requests && Own(d.history, Handler(r)) == HttpSteps(r, [])
  }

  lemma HandlerUntouched(s: State, t: State, r: RequestId)
    requires Untouched(s, t, Handler(r)) && r in s.requests
    ensures r in t.requests && t.requests[r] == s.requests[r]
  {
  }

  /** An await between two steps of a handler; the handler may not live to see the next one. */
  method Await(d: Deployment, r: RequestId, ghost q: Request, ghost did: seq<HttpEvent>) returns (up: bool)
    requires Serving(d, r, q, did)
    modifies d
    ensures if up then d.faults == old(d.faults) else old(d.faults) < d.faults
    ensures old(d.history) <= d.history && Progress(old(d.s), d.s) && d.Valid() && Serving(d, r, q, did)
  {
    hide Progress, Untouched, Own, HttpSteps;
    d.Wait(Handler(r));
    HandlerUntouched(old(d.s), d.s, r);
    up := *;
    if !up { d.faults := d.faults + 1; }
  }

  method Act(d: Deployment, r: RequestId, h: HttpEvent, ghost did: seq<HttpEvent>)
    requires d.Valid() && Own(d.history, Handler(r)) == HttpSteps(r, did) && HttpEnabled(d.cfg, d.s, r, h)
    modifies d`s, d`history
    ensures d.history == old(d.history) + [Http(r, h)] && d.s == HttpApply(d.cfg, old(d.s), r, h)
    ensures Progress(old(d.s), d.s) && r in d.s.requests && Serving(d, r, d.s.requests[r], did + [h])
  {
    HttpProgress(d.cfg, d.s, r, h);
    HttpFrame(d.cfg, d.s, r, h);
    OwnNext(d.history, Http(r, h), Handler(r));
    assert HttpSteps(r, did + [h]) == HttpSteps(r, did) + [Http(r, h)];
    hide Progress, HttpApply, HttpEnabled, Own, HttpSteps;
    d.Step(Http(r, h));
  }

  lemma HandleStep(cfg: Settings, s: State, r: RequestId, h: HttpEvent)
    requires HttpEnabled(cfg, s, r, h)
    ensures var t := HttpApply(cfg, s, r, h);
            && r in t.requests
            && match h
               case TakeSession(token) =>
                 t.requests[r] == TookSession(token, s.sessions[token].tenant, s.sessions[token].createdAt)
                     && token in t.consumed && token !in t.sessions
               case Admit(tx) => t.requests[r] == Admitted(tx, s.requests[r].tenant) && tx in t.trails
                 && t.trails[tx].session == s.requests[r].token
               case PutFrame(_) => t.requests[r] == Stored(s.requests[r].tx, s.requests[r].tenant)
                 && FrameRef(s.requests[r].tx) in t.store
               case EnqueueFace => t.requests[r] == Closed && Job(s.requests[r].tx, FacePhase) in t.jobs
               case TakeDocumentSession(token) =>
                 var ds := s.documentSessions[token];
                 t.requests[r] == TookDocumentSession(ds.tx, ds.tenant, ds.createdAt) && token !in t.documentSessions
               case AdmitDocument => t.requests[r] == DocumentAdmitted(s.requests[r].tx, s.requests[r].tenant)
               case PutDocument(_) => t.requests[r] == DocumentStored(s.requests[r].tx, s.requests[r].tenant)
               case PutSelfie(_) => t.requests[r] == BothStored(s.requests[r].tx, s.requests[r].tenant)
               case EnqueueDocument => t.requests[r] == Closed && Job(s.requests[r].tx, DocumentPhase) in t.jobs
               case Reject => t.requests[r] == Closed
  {
  }

  /** Transaction tx was opened with that session token. */
  predicate OpenedWith(s: State, tx: TxId, token: Token) {
    tx in s.trails && s.trails[tx].session == token
  }

  lemma OpenedWithStays(s: State, t: State, tx: TxId, token: Token)
    requires Progress(s, t) && OpenedWith(s, tx, token)
    ensures OpenedWith(t, tx, token)
  {
  }

  /** An open session was opened by an event of the run, and an open document session issued by one. */
  lemma SessionOpened(d: Deployment, token: Token, e: Event)
    requires d.Valid()
    ensures token in d.s.sessions ==> WasOpened(d.cfg, d.start, d.history + [e], token, d.s.sessions[token])
    ensures token in d.s.documentSessions ==>
              WasIssued(d.cfg, d.start, d.history + [e], token, d.s.documentSessions[token])
  {
    RunTold(d.cfg, d.start, d.history);
    hide Legal, Final, WasOpened, WasIssued, RequestTold;
    assert Front(d.history + [e]) == d.history;
    if token in d.s.sessions { LaterOpened(d.cfg, d.start, d.history + [e], token, d.s.sessions[token]); }
    if token in d.s.documentSessions {
      LaterIssued(d.cfg, d.start, d.history + [e], token, d.s.documentSessions[token]);
    }
  }

  /** The two answers of consume_session: the deleted row, or nothing. */
  method ConsumeSession(d: Deployment, r: RequestId, token: Token) returns (row: Option<Session>)
    requires d.Valid() && r !in d.s.requests
    modifies d`s, d`history
    ensures old(d.history) <= d.history && d.Valid()
    ensures row.Some? ==>
              && Serving(d, r, TookSession(token, row.value.tenant, row.value.createdAt), [TakeSession(token)])
              && token in d.s.consumed && token !in d.s.sessions
              && WasOpened(d.cfg, d.start, d.history, token, row.value)
    ensures row.None? ==> Unserved(d, r) && token !in d.s.sessions
  {
    NewHandler(d, r);
    if token !in d.s.sessions { return None; }
    row := Some(d.s.sessions[token]);
    SessionOpened(d, token, Http(r, TakeSession(token)));
    HandleStep(d.cfg, d.s, r, TakeSession(token));
    hide HttpApply, Progress, Own, HttpSteps, WasOpened;
    Act(d, r, TakeSession(token), []);
    assert [] + [TakeSession(token)] == [TakeSession(token)];
  }

  /** The others run before the handler's first statement reaches the database. */
  method NewHandler(d: Deployment, r: RequestId)
    requires d.Valid() && r !in d.s.requests
    modifies d`s, d`history
    ensures Unserved(d, r) && old(d.history) <= d.history
  {
    NoStepsYet(d.cfg, d.start, d.history, r);
    hide Progress, Own;
    d.Wait(Handler(r));
  }

  /** The expiry check and, when it passes, a new transaction id: no await in between. */
  method AdmitFrame(d: Deployment, r: RequestId, token: Token, ghost tenant: TenantId, createdAt: int)
    returns (tx: Option<TxId>)
    requires Serving(d, r, TookSession(token, tenant, createdAt), [TakeSession(token)])
    modifies d`s, d`history
    ensures old(d.history) <= d.history && d.Valid()
    ensures tx.Some? <==> old(d.s.now) - createdAt <= d.cfg.sessionTtlMs
    ensures tx.Some? ==>
              && Serving(d, r, Admitted(tx.value, tenant), [TakeSession(token), Admit(tx.value)])
              && OpenedWith(d.s, tx.value, token) && tx.value !in old(d.s.trails)
    ensures tx.None? ==> Serving(d, r, Closed, [TakeSession(token), Reject])
  {
    hide Progress, Own, HttpSteps;
    if d.s.now - createdAt > d.cfg.sessionTtlMs {
      HandleStep(d.cfg, d.s, r, Reject);
      hide HttpApply;
      Act(d, r, Reject, [TakeSession(token)]);
      assert [TakeSession(token)] + [Reject] == [TakeSession(token), Reject];
      return None;
    }
    SomeNatIsNew(d.s.trails.Keys);
    var transactionId: nat :| transactionId !in d.s.trails;
    HandleStep(d.cfg, d.s, r, Admit(transactionId));
    hide HttpApply;
    Act(d, r, Admit(transactionId), [TakeSession(token)]);
    assert [TakeSession(token)] + [Admit(transactionId)] == [TakeSession(token), Admit(transactionId)];
    return Some(transactionId);
  }

  // ----- the bytes of a frame -----

  /** The bytes put for the transaction are those. */
  ghost predicate FrameIs(d: Deployment, tx: TxId, m: Media)
    reads d
  {
    d.Valid() && LastPut(d.cfg, d.start, d.history, FrameRef(tx)) == Some(m)
  }

  lemma FrameStays(d: Deployment, before: seq<Event>, tx: TxId, m: Media)
    requires d.Valid() && before <= d.history && Legal(d.cfg, d.start, before)
    requires LastPut(d.cfg, d.start, before, FrameRef(tx)) == Some(m)
    ensures FrameIs(d, tx, m)
  {
    assert d.history[..|before|] == before;
    FramePutOnce(d.cfg, d.start, d.history, |before|, tx);
  }

  /** store.put of the frame. */
  method PutTheFrame(d: Deployment, r: RequestId, tx: TxId, m: Media, ghost tenant: TenantId, ghost did: seq<HttpEvent>)
    requires Serving(d, r, Admitted(tx, tenant), did)
    modifies d`s, d`history
    ensures old(d.history) <= d.history && Progress(old(d.s), d.s)
    ensures Serving(d, r, Stored(tx, tenant), did + [PutFrame(m)]) && FrameIs(d, tx, m)
  {
    HandleStep(d.cfg, d.s, r, PutFrame(m));
    assert PutBy(d.s, Http(r, PutFrame(m)), FrameRef(tx)) == Some(m);
    hide HttpApply, Progress, Own, HttpSteps, PutBy;
    Act(d, r, PutFrame(m), did);
    assert Front(d.history) == old(d.history);
  }

  /** An await of the handler that admitted transaction tx: whose it is, and its frame once put, stay. */
  method AwaitFrame(d: Deployment, r: RequestId, ghost q: Request, ghost did: seq<HttpEvent>, ghost tx: TxId,
                    ghost token: Token, ghost m: Media, ghost stored: bool)
    returns (up: bool)
    requires Serving(d, r, q, did) && OpenedWith(d.s, tx, token) && (stored ==> FrameIs(d, tx, m))
    modifies d
    ensures if up then d.faults == old(d.faults) else old(d.faults) < d.faults
    ensures old(d.history) <= d.history && Serving(d, r, q, did) && OpenedWith(d.s, tx, token)
    ensures stored ==> FrameIs(d, tx, m)
  {
    hide Progress, Own, HttpSteps, OpenedWith, LastPut;
    ghost var before := d.history;
    up := Await(d, r, q, did);
    OpenedWithStays(old(d.s), d.s, tx, token);
    if stored { FrameStays(d, before, tx, m); }
  }

  /** queue.enqueue of the face check. */
  method Enqueue(d: Deployment, r: RequestId, ghost tx: TxId, ghost token: Token, ghost m: Media,
                 ghost tenant: TenantId, ghost did: seq<HttpEvent>)
    requires Serving(d, r, Stored(tx, tenant), did) && OpenedWith(d.s, tx, token) && FrameIs(d, tx, m)
    modifies d`s, d`history
    ensures old(d.history) <= d.history && Serving(d, r, Closed, did + [EnqueueFace])
    ensures OpenedWith(d.s, tx, token) && FrameIs(d, tx, m) && Job(tx, FacePhase) in d.s.jobs
  {
    hide Progress, Own, HttpSteps, OpenedWith, LastPut;
    HandleStep(d.cfg, d.s, r, EnqueueFace);
    ghost var before := d.history;
    hide HttpApply;
    Act(d, r, EnqueueFace, did);
    OpenedWithStays(old(d.s), d.s, tx, token);
    FrameStays(d, before, tx, m);
  }

  /** The steps of a face submission that is accepted. */
  function FrameSteps(token: Token, tx: TxId, m: Media): seq<HttpEvent> {
    [TakeSession(token), Admit(tx), PutFrame(m), EnqueueFace]
  }

  /** store.put of the frame, then the queue. */
  method StoreAndEnqueue(d: Deployment, r: RequestId, tx: TxId, m: Media, ghost token: Token, ghost tenant: TenantId)
    returns (up: bool)
    requires Serving(d, r, Admitted(tx, tenant), FrameSteps(token, tx, m)[..2]) && OpenedWith(d.s, tx, token)
    modifies d
    ensures if up then d.faults == old(d.faults) else old(d.faults) < d.faults
    ensures old(d.history) <= d.history && d.Valid()
    ensures up ==>
              && Serving(d, r, Closed, FrameSteps(token, tx, m)) && OpenedWith(d.s, tx, token) && FrameIs(d, tx, m)
              && Job(tx, FacePhase) in d.s.jobs
  {
    hide Progress, Own, HttpSteps, OpenedWith, FrameIs;
    ghost var all := FrameSteps(token, tx, m);
    up := AwaitFrame(d, r, Admitted(tx, tenant), all[..2], tx, token, m, false);
    if !up { return; }
    ghost var s := d.s;
    PutTheFrame(d, r, tx, m, tenant, all[..2]);
    OpenedWithStays(s, d.s, tx, token);
    assert all[..2] + [PutFrame(m)] == all[..3];
    up := AwaitFrame(d, r, Stored(tx, tenant), all[..3], tx, token, m, true);
    if !up { return; }
    Enqueue(d, r, tx, token, m, tenant, all[..3]);
    assert all[..3] + [EnqueueFace] == all;
  }

  /** An image of a request body: None where there is no string. */
  datatype Image = Image(iv: Option<string>, tag: Option<string>, ciphertext: Option<string>)

  predicate NonEmpty(text: Option<string>) {
    text.Some? && text.value != ""
  }

  predicate Complete(i: Image) {
    NonEmpty(i.iv) && NonEmpty(i.tag) && NonEmpty(i.ciphertext)
  }

  /** There is no image, or one of its three texts is not there or empty. */
  predicate Defective(i: Option<Image>) {
    i.None? || exists text | text in [i.value.iv, i.value.tag, i.value.ciphertext] :: text == None || text == Some("")
  }

  lemma DefectiveOrComplete(i: Option<Image>)
    ensures i.Some? && Complete(i.value) <==> !Defective(i)
  {
    if i.Some? {
      var texts := [i.value.iv, i.value.tag, i.value.ciphertext];
      assert i.value.iv == texts[0] && i.value.tag == texts[1] && i.value.ciphertext == texts[2];
      assert i.value.iv in texts && i.value.tag in texts && i.value.ciphertext in texts;
    }
  }

  /** Buffer.from(_, 'base64') of all three, then serializeFrame. */
  function ToMedia(i: Image): Media
    requires Complete(i)
  {
    FrameCodec.SerializeFrame(FrameCodec.EncryptedFrame(
      Base64.Decode(i.iv.value), Base64.Decode(i.tag.value), Base64.Decode(i.ciphertext.value)))
  }

  /** What the body of a face submission holds: the token, if it is a non-empty string, and the frame. */
  datatype FrameBody = FrameBody(token: Option<Token>, frame: Option<Image>) {
    predicate Accepted() {
      token.Some? && frame.Some? && Complete(frame.value)
    }
  }

  /** VerificationController.verify: a malformed body changes nothing; an accepted one has used up
      its token, which opened the transaction it answers with, has put its frame, which is the frame of
      that transaction from then on, and has queued the face check. */
  method SubmitFrame(d: Deployment, r: RequestId, body: FrameBody) returns (response: Response)
    requires d.Valid() && r !in d.s.requests
    modifies d
    ensures response == Unanswered <==> old(d.faults) < d.faults
    ensures old(d.faults) <= d.faults
    ensures d.Valid() && old(d.history) <= d.history
    ensures response.BadRequest? || response.Accepted? || response.Unanswered?
    ensures body.token.None? || Defective(body.frame) <==> response == BadRequest(Malformed)
    ensures response == BadRequest(Malformed) ==> d.history == old(d.history)
    ensures response == BadRequest(InvalidToken) ==> Unserved(d, r) && body.token.value !in d.s.sessions
    ensures response == BadRequest(Expired) ==> Serving(d, r, Closed, [TakeSession(body.token.value), Reject])
    ensures response.Accepted? ==>
              body.Accepted() && FrameQueued(d, r, response.tx, body.token.value, ToMedia(body.frame.value))
  {
    DefectiveOrComplete(body.frame);
    hide Defective;
    if !body.Accepted() { return BadRequest(Malformed); }
    hide Progress, Own, HttpSteps, Complete, ToMedia, FrameQueued;
    var token := body.token.value;
    var row := ConsumeSession(d, r, token);
    if row.None? { return BadRequest(InvalidToken); }
    response := ServeFrame(d, r, token, row.value, body.frame.value);
  }

  /** The outcome of an accepted face submission. */
  ghost predicate FrameQueued(d: Deployment, r: RequestId, tx: TxId, token: Token, m: Media)
    reads d
  {
    && Serving(d, r, Closed, FrameSteps(token, tx, m)) && OpenedWith(d.s, tx, token) && FrameIs(d, tx, m)
    && Job(tx, FacePhase) in d.s.jobs
  }

  /** What follows once the session is taken. */
  method ServeFrame(d: Deployment, r: RequestId, token: Token, row: Session, frame: Image) returns (response: Response)
    requires Serving(d, r, TookSession(token, row.tenant, row.createdAt), [TakeSession(token)]) && Complete(frame)
    modifies d
    ensures response == Unanswered <==> old(d.faults) < d.faults
    ensures old(d.faults) <= d.faults
    ensures d.Valid() && old(d.history) <= d.history
    ensures response == BadRequest(Expired) || response.Accepted? || response == Unanswered
    ensures response == BadRequest(Expired) ==> Serving(d, r, Closed, [TakeSession(token), Reject])
    ensures response.Accepted? ==> FrameQueued(d, r, response.tx, token, ToMedia(frame))
  {
    hide Progress, OpenedWith, Own, HttpSteps, ToMedia, FrameIs;
    var up := Await(d, r, TookSession(token, row.tenant, row.createdAt), [TakeSession(token)]);
    if !up { return Unanswered; }
    var tx := AdmitFrame(d, r, token, row.tenant, row.createdAt);
    if tx.None? { return BadRequest(Expired); }
    var m := ToMedia(frame);
    assert FrameSteps(token, tx.value, m)[..2] == [TakeSession(token), Admit(tx.value)];
    up := StoreAndEnqueue(d, r, tx.value, m, token, row.tenant);
    return if up then Accepted(tx.value) else Unanswered;
  }

  /** A frame that the plugin sealed and sent: whoever is shown the frame of the transaction is shown
      that image. */
  lemma SentIsShown(d: Deployment, tx: TxId, frame: Image, crypto: Crypto, iv: Base64.Bytes, plain: Base64.Bytes,
                    a: AttemptId, shown: Base64.Bytes)
    requires Complete(frame) && FrameIs(d, tx, ToMedia(frame)) && Lawful(crypto.cipher)
    requires var f := EncryptFrame(crypto.cipher, crypto.key, iv, plain);
             frame == Image(Some(Base64.Encode(f.iv)), Some(Base64.Encode(f.tag)), Some(Base64.Encode(f.ciphertext)))
    requires ShownIn(d.cfg, d.start, d.history, a, FrameRef(tx), crypto, shown)
    ensures shown == plain
  {
    hide ShownIn, LastPut, FrameCodec.SerializeFrame, Lawful, EncryptFrame, Base64.Encode, Base64.Decode;
    var f := EncryptFrame(crypto.cipher, crypto.key, iv, plain);
    Base64.RoundTrip(f.iv);
    Base64.RoundTrip(f.tag);
    Base64.RoundTrip(f.ciphertext);
    SubmittedIsShown(d.cfg, d.start, d.history, a, tx, crypto, iv, plain, shown);
  }

  // ----- documents -----

  /** That document token was drawn for transaction tx. */
  predicate IssuedFor(s: State, tx: TxId, token: Token) {
    tx in s.trails && token in s.trails[tx].issued
  }

  lemma IssuedForStays(s: State, t: State, tx: TxId, token: Token)
    requires Progress(s, t) && IssuedFor(s, tx, token)
    ensures IssuedFor(t, tx, token)
  {
  }

  /** An open document session is of the transaction that its token was drawn for. */
  lemma SessionIsIssued(d: Deployment, token: Token)
    requires d.Valid() && token in d.s.documentSessions
    ensures IssuedFor(d.s, d.s.documentSessions[token].tx, token)
  {
    RunRooted(d.cfg, d.start, d.history);
    assert SessionRooted(d.s, token, d.s.documentSessions[token]);
  }

  /** No document session is open under that token, or no webhook request has carried it. */
  predicate Unknown(s: State, token: Token) {
    token in s.documentSessions ==>
      var tx := s.documentSessions[token].tx;
      tx in s.trails && forall p | p in s.trails[tx].sent :: p.token != Some(token)
  }

  /** consume_document_session. A token that no webhook request has carried is known to nobody. */
  method ConsumeDocumentSession(d: Deployment, r: RequestId, token: Token) returns (row: Option<DocumentSession>)
    requires d.Valid() && r !in d.s.requests
    modifies d`s, d`history
    ensures old(d.history) <= d.history && d.Valid()
    ensures row.Some? ==>
              && Serving(d, r, TookDocumentSession(row.value.tx, row.value.tenant, row.value.createdAt),
                         [TakeDocumentSession(token)])
              && token !in d.s.documentSessions && IssuedFor(d.s, row.value.tx, token)
              && WasIssued(d.cfg, d.start, d.history, token, row.value)
    ensures row.None? ==> Unserved(d, r) && Unknown(d.s, token)
  {
    NewHandler(d, r);
    if token !in d.s.documentSessions || !Revealed(d.s, d.s.documentSessions[token].tx, token) {
      if token in d.s.documentSessions { SessionIsIssued(d, token); }
      return None;
    }
    row := Some(d.s.documentSessions[token]);
    HandleStep(d.cfg, d.s, r, TakeDocumentSession(token));
    SessionIsIssued(d, token);
    SessionOpened(d, token, Http(r, TakeDocumentSession(token)));
    ghost var s := d.s;
    hide HttpApply, Progress, IssuedFor, Own, HttpSteps, WasIssued;
    Act(d, r, TakeDocumentSession(token), []);
    assert [] + [TakeDocumentSession(token)] == [TakeDocumentSession(token)];
    IssuedForStays(s, d.s, row.value.tx, token);
  }

  /** A step, then an await; the token stays that of the transaction. */
  method ActOn(d: Deployment, r: RequestId, h: HttpEvent, ghost next: Request, ghost tx: TxId, ghost token: Token,
               ghost did: seq<HttpEvent>)
    returns (up: bool)
    requires d.Valid() && Own(d.history, Handler(r)) == HttpSteps(r, did) && HttpEnabled(d.cfg, d.s, r, h)
    requires r in HttpApply(d.cfg, d.s, r, h).requests && HttpApply(d.cfg, d.s, r, h).requests[r] == next
    requires IssuedFor(d.s, tx, token)
    modifies d
    ensures if up then d.faults == old(d.faults) else old(d.faults) < d.faults
    ensures old(d.history) <= d.history && Serving(d, r, next, did + [h]) && IssuedFor(d.s, tx, token)
  {
    hide HttpApply, HttpEnabled, Progress, Own, HttpSteps, IssuedFor;
    Act(d, r, h, did);
    ghost var s := d.s;
    IssuedForStays(old(d.s), s, tx, token);
    up := Await(d, r, next, did + [h]);
    IssuedForStays(s, d.s, tx, token);
  }

  /** The steps of a document submission that is accepted. */
  function DocumentSteps(token: Token, document: Media, selfie: Media): seq<HttpEvent> {
    [TakeDocumentSession(token), AdmitDocument, PutDocument(document), PutSelfie(selfie), EnqueueDocument]
  }

  /** The outcome of an accepted document submission. */
  ghost predicate DocumentQueued(d: Deployment, r: RequestId, tx: TxId, token: Token, document: Media, selfie: Media)
    reads d
  {
    && Serving(d, r, Closed, DocumentSteps(token, document, selfie)) && IssuedFor(d.s, tx, token)
    && Job(tx, DocumentPhase) in d.s.jobs
  }

  /** store.put of the document. */
  method PutTheDocument(d: Deployment, r: RequestId, ghost tx: TxId, m: Media, ghost token: Token,
                        ghost tenant: TenantId, ghost did: seq<HttpEvent>)
    returns (up: bool)
    requires Serving(d, r, DocumentAdmitted(tx, tenant), did) && IssuedFor(d.s, tx, token)
    modifies d
    ensures if up then d.faults == old(d.faults) else old(d.faults) < d.faults
    ensures old(d.history) <= d.history && d.Valid()
    ensures Serving(d, r, DocumentStored(tx, tenant), did + [PutDocument(m)]) && IssuedFor(d.s, tx, token)
  {
    hide HttpApply, Progress, IssuedFor, Own, HttpSteps;
    HandleStep(d.cfg, d.s, r, PutDocument(m));
    up := ActOn(d, r, PutDocument(m), DocumentStored(tx, tenant), tx, token, did);
  }

  /** store.put of the selfie. */
  method PutTheSelfie(d: Deployment, r: RequestId, ghost tx: TxId, m: Media, ghost token: Token,
                      ghost tenant: TenantId, ghost did: seq<HttpEvent>)
    returns (up: bool)
    requires Serving(d, r, DocumentStored(tx, tenant), did) && IssuedFor(d.s, tx, token)
    modifies d
    ensures if up then d.faults == old(d.faults) else old(d.faults) < d.faults
    ensures old(d.history) <= d.history && d.Valid()
    ensures Serving(d, r, BothStored(tx, tenant), did + [PutSelfie(m)]) && IssuedFor(d.s, tx, token)
  {
    hide HttpApply, Progress, IssuedFor, Own, HttpSteps;
    HandleStep(d.cfg, d.s, r, PutSelfie(m));
    up := ActOn(d, r, PutSelfie(m), BothStored(tx, tenant), tx, token, did);
  }

  /** Both images are stored, one after the other, then the job is queued. */
  method StoreImagesAndEnqueue(d: Deployment, r: RequestId, ghost tx: TxId, document: Media, selfie: Media,
                               ghost token: Token, ghost tenant: TenantId)
    returns (up: bool)
    requires Serving(d, r, DocumentAdmitted(tx, tenant), DocumentSteps(token, document, selfie)[..2])
    requires IssuedFor(d.s, tx, token)
    modifies d
    ensures if up then d.faults == old(d.faults) else old(d.faults) < d.faults
    ensures old(d.history) <= d.history && d.Valid()
    ensures up ==> DocumentQueued(d, r, tx, token, document, selfie)
  {
    hide Serving, IssuedFor, Progress, Deployment.Valid;
    ghost var all := DocumentSteps(token, document, selfie);
    ghost var s := d.s;
    up := Await(d, r, DocumentAdmitted(tx, tenant), all[..2]);
    IssuedForStays(s, d.s, tx, token);
    if !up { return; }
    up := PutTheDocument(d, r, tx, document, token, tenant, all[..2]);
    assert all[..2] + [PutDocument(document)] == all[..3];
    if !up { return; }
    up := PutTheSelfie(d, r, tx, selfie, token, tenant, all[..3]);
    assert all[..3] + [PutSelfie(selfie)] == all[..4];
    if !up { return; }
    EnqueueDocumentCheck(d, r, tx, token, tenant, all[..4]);
    assert all[..4] + [EnqueueDocument] == all;
  }

  /** queue.enqueue of the document check. */
  method EnqueueDocumentCheck(d: Deployment, r: RequestId, ghost tx: TxId, ghost token: Token, ghost tenant: TenantId,
                              ghost did: seq<HttpEvent>)
    requires Serving(d, r, BothStored(tx, tenant), did) && IssuedFor(d.s, tx, token)
    modifies d`s, d`history
    ensures old(d.history) <= d.history && d.Valid() && Serving(d, r, Closed, did + [EnqueueDocument])
    ensures IssuedFor(d.s, tx, token) && Job(tx, DocumentPhase) in d.s.jobs
  {
    hide Progress, Own, HttpSteps, IssuedFor;
    HandleStep(d.cfg, d.s, r, EnqueueDocument);
    hide HttpApply;
    Act(d, r, EnqueueDocument, did);
    IssuedForStays(old(d.s), d.s, tx, token);
  }

  /** What the body of a document submission holds. */
  datatype DocumentBody = DocumentBody(token: Option<Token>, document: Option<Image>, selfie: Option<Image>) {
    predicate Accepted() {
      token.Some? && document.Some? && Complete(document.value) && selfie.Some? && Complete(selfie.value)
    }
  }

  /** DocumentController.submit: the answer names the transaction that the presented token was
      drawn for; both images were put, document first, and the document check is queued. */
  method SubmitDocument(d: Deployment, r: RequestId, body: DocumentBody) returns (response: Response)
    requires d.Valid() && r !in d.s.requests
    modifies d
    ensures response == Unanswered <==> old(d.faults) < d.faults
    ensures old(d.faults) <= d.faults
    ensures d.Valid() && old(d.history) <= d.history
    ensures response.BadRequest? || response.Accepted? || response.Unanswered?
    ensures response == BadRequest(Malformed)
            <==> body.token.None? || Defective(body.document) || Defective(body.selfie)
    ensures response == BadRequest(Malformed) ==> d.history == old(d.history)
    ensures response == BadRequest(InvalidToken) ==> Unserved(d, r) && Unknown(d.s, body.token.value)
    ensures response == BadRequest(Expired) ==> Serving(d, r, Closed, [TakeDocumentSession(body.token.value), Reject])
    ensures response.Accepted? ==>
              body.Accepted() && DocumentQueued(d, r, response.tx, body.token.value, ToMedia(body.document.value),
                                                ToMedia(body.selfie.value))
  {
    DefectiveOrComplete(body.document);
    DefectiveOrComplete(body.selfie);
    hide Defective;
    if !body.Accepted() { return BadRequest(Malformed); }
    hide Progress, Own, HttpSteps, Complete, ToMedia, DocumentQueued;
    var token := body.token.value;
    var row := ConsumeDocumentSession(d, r, token);
    if row.None? { return BadRequest(InvalidToken); }
    response := ServeDocument(d, r, token, row.value, body.document.value, body.selfie.value);
  }

  /** What follows once the document session is taken. */
  method ServeDocument(d: Deployment, r: RequestId, ghost token: Token, row: DocumentSession, document: Image,
                       selfie: Image)
    returns (response: Response)
    requires Serving(d, r, TookDocumentSession(row.tx, row.tenant, row.createdAt), [TakeDocumentSession(token)])
    requires IssuedFor(d.s, row.tx, token) && Complete(document) && Complete(selfie)
    modifies d
    ensures response == Unanswered <==> old(d.faults) < d.faults
    ensures old(d.faults) <= d.faults
    ensures d.Valid() && old(d.history) <= d.history
    ensures response == BadRequest(Expired) || response == Accepted(row.tx) || response == Unanswered
    ensures response == BadRequest(Expired) ==> Serving(d, r, Closed, [TakeDocumentSession(token), Reject])
    ensures response.Accepted? ==> DocumentQueued(d, r, row.tx, token, ToMedia(document), ToMedia(selfie))
  {
    hide Progress, IssuedFor, Own, HttpSteps, ToMedia, DocumentQueued;
    ghost var s := d.s;
    var up := Await(d, r, TookDocumentSession(row.tx, row.tenant, row.createdAt), [TakeDocumentSession(token)]);
    IssuedForStays(s, d.s, row.tx, token);
    if !up { return Unanswered; }
    s := d.s;
    var inTime := AdmitImages(d, r, token, row.tx, row.tenant, row.createdAt);
    IssuedForStays(s, d.s, row.tx, token);
    if !inTime { return BadRequest(Expired); }
    var m, n := ToMedia(document), ToMedia(selfie);
    assert DocumentSteps(token, m, n)[..2] == [TakeDocumentSession(token), AdmitDocument];
    up := StoreImagesAndEnqueue(d, r, row.tx, m, n, token, row.tenant);
    return if up then Accepted(row.tx) else Unanswered;
  }

  /** The expiry check of a document session. */
  method AdmitImages(d: Deployment, r: RequestId, ghost token: Token, ghost tx: TxId, ghost tenant: TenantId,
                     createdAt: int)
    returns (inTime: bool)
    requires Serving(d, r, TookDocumentSession(tx, tenant, createdAt), [TakeDocumentSession(token)])
    modifies d`s, d`history
    ensures old(d.history) <= d.history && Progress(old(d.s), d.s)
    ensures inTime <==> old(d.s.now) - createdAt <= d.cfg.sessionTtlMs
    ensures Serving(d, r, if inTime then DocumentAdmitted(tx, tenant) else Closed,
                    [TakeDocumentSession(token), if inTime then AdmitDocument else Reject])
  {
    inTime := d.s.now - createdAt <= d.cfg.sessionTtlMs;
    var h := if inTime then AdmitDocument else Reject;
    HandleStep(d.cfg, d.s, r, h);
    hide HttpApply, Progress, Own, HttpSteps;
    Act(d, r, h, [TakeDocumentSession(token)]);
    assert [TakeDocumentSession(token)] + [h] == [TakeDocumentSession(token), h];
  }

  // ----- sessions -----

  /** Call c stands at that point of incrementAndCheck in a legal run, and nothing was bought with it. */
  ghost predicate Calling(d: Deployment, c: Quota.CallId, tenant: TenantId, limit: nat, pc: Quota.Pc)
    reads d
  {
    && d.Valid() && c in d.s.quota.calls && c !in d.s.payments.Values
    && d.s.quota.calls[c].key.tenant == tenant && d.s.quota.calls[c].limit == limit && d.s.quota.calls[c].pc == pc
    && InMonth(d.s.quota.calls[c].key.month, d.s.quota.calls[c].begunAt)
  }

  method AwaitCall(d: Deployment, c: Quota.CallId, ghost tenant: TenantId, ghost limit: nat, ghost pc: Quota.Pc)
    returns (up: bool)
    requires Calling(d, c, tenant, limit, pc)
    modifies d
    ensures if up then d.faults == old(d.faults) else old(d.faults) < d.faults
    ensures old(d.history) <= d.history && Calling(d, c, tenant, limit, pc)
    ensures Own(d.history, QuotaCall(c)) == Own(old(d.history), QuotaCall(c))
  {
    hide Progress, Own;
    d.Wait(QuotaCall(c));
    up := *;
    if !up { d.faults := d.faults + 1; }
  }

  lemma CallStep(s: Quota.State, q: Quota.Event, now: int)
    requires Quota.Enabled(s, q) && !q.ChangePlan?
    ensures var t := Quota.Apply(s, q, now);
            && q.c in t.calls
            && match q
               case Begin(c, tenant, plan) =>
                 t.calls[c].key.tenant == tenant && t.calls[c].limit == Limit(plan)
                     && t.calls[c].pc == Quota.Begun && t.calls[c].begunAt == now && InMonth(t.calls[c].key.month, now)
               case Count(c) =>
                 var n := Redis.Get(s.db, s.calls[c].key, now) + 1;
                 t.calls[c] == s.calls[c].(pc := if n == 1 then Quota.Counted(n) else Quota.Ready(n))
               case Arm(c) => t.calls[c] == s.calls[c].(pc := Quota.Ready(s.calls[c].pc.n))
               case Finish(c) => t.calls[c] == s.calls[c].(pc := Quota.Won(s.calls[c].pc.n))
               case RollBack(c) => t.calls[c] == s.calls[c].(pc := Quota.RolledBack(s.calls[c].pc.n))
               case Crash(c) => true
  {
    if q.Begin? { MonthHolds(now, MonthAt(now)); }
    hide InMonth, MonthAt;
  }

  /** What the three plans allow a month. */
  function Limit(plan: Quota.Plan): nat {
    match plan
    case Free => 100
    case Pro => 10_000
    case Scale => 100_000
  }

  method ActCall(d: Deployment, ghost c: Quota.CallId, q: Quota.Event)
    requires d.Valid() && Quota.Enabled(d.s.quota, q) && c !in d.s.payments.Values && !q.ChangePlan? && q.c == c
    modifies d`s, d`history
    ensures d.history == old(d.history) + [QuotaStep(q)] && d.Valid() && c !in d.s.payments.Values
    ensures d.s.quota == Quota.Apply(old(d.s.quota), q, old(d.s.now))
    ensures Own(d.history, QuotaCall(c)) == Own(old(d.history), QuotaCall(c)) + [QuotaStep(q)]
  {
    OwnNext(d.history, QuotaStep(q), QuotaCall(c));
    hide Quota.Apply, Quota.Enabled, Own;
    d.Step(QuotaStep(q));
  }

  /** The commands of a call whose increment came to n. */
  function Commands(c: Quota.CallId, limit: nat, n: int): seq<Event> {
    Counting(c, n) + [QuotaStep(if n <= limit then Quota.Finish(c) else Quota.RollBack(c))]
  }

  /** UsageService.incrementAndCheck after the key is computed: INCR, PEXPIRE by whoever counted
      1, then DECR when the count is past the limit. */
  method IncrementAndCheck(d: Deployment, c: Quota.CallId, ghost tenant: TenantId, limit: nat)
    returns (up: bool, n: int)
    requires Calling(d, c, tenant, limit, Quota.Begun)
    modifies d
    ensures if up then d.faults == old(d.faults) else old(d.faults) < d.faults
    ensures old(d.history) <= d.history && d.Valid() && c in old(d.s.quota.calls)
    ensures n == Redis.Get(old(d.s.quota.db), old(d.s.quota.calls)[c].key, old(d.s.now)) + 1
    ensures up ==> Calling(d, c, tenant, limit, if n <= limit then Quota.Won(n) else Quota.RolledBack(n))
    ensures up ==> Own(d.history, QuotaCall(c)) == Own(old(d.history), QuotaCall(c)) + Commands(c, limit, n)
  {
    hide Deployment.Valid, Own, Redis.Get;
    up, n := CountAndArm(d, c, tenant, limit);
    if up { Compare(d, c, tenant, limit, n); }
  }

  /** The commands of an increment that came to n, before the count is compared. */
  function Counting(c: Quota.CallId, n: int): seq<Event> {
    [QuotaStep(Quota.Count(c))] + if n == 1 then [QuotaStep(Quota.Arm(c))] else []
  }

  method CountAndArm(d: Deployment, c: Quota.CallId, ghost tenant: TenantId, ghost limit: nat)
    returns (up: bool, n: int)
    requires Calling(d, c, tenant, limit, Quota.Begun)
    modifies d
    ensures if up then d.faults == old(d.faults) else old(d.faults) < d.faults
    ensures old(d.history) <= d.history && d.Valid() && c in old(d.s.quota.calls)
    ensures n == Redis.Get(old(d.s.quota.db), old(d.s.quota.calls)[c].key, old(d.s.now)) + 1
    ensures up ==> Calling(d, c, tenant, limit, Quota.Ready(n))
    ensures up ==> Own(d.history, QuotaCall(c)) == Own(old(d.history), QuotaCall(c)) + Counting(c, n)
  {
    hide Deployment.Valid, Own, Redis.Get;
    n := Increment(d, c, tenant, limit);
    if n == 1 {
      up := AwaitCall(d, c, tenant, limit, Quota.Counted(1));
      if !up { return; }
      SetExpiry(d, c, tenant, limit, 1);
    }
    up := AwaitCall(d, c, tenant, limit, Quota.Ready(n));
  }

  /** redis.incr. */
  method Increment(d: Deployment, c: Quota.CallId, ghost tenant: TenantId, ghost limit: nat) returns (n: int)
    requires Calling(d, c, tenant, limit, Quota.Begun)
    modifies d`s, d`history
    ensures old(d.history) <= d.history
    ensures n == Redis.Get(old(d.s.quota.db), old(d.s.quota.calls[c].key), old(d.s.now)) + 1
    ensures Calling(d, c, tenant, limit, if n == 1 then Quota.Counted(n) else Quota.Ready(n))
    ensures Own(d.history, QuotaCall(c)) == Own(old(d.history), QuotaCall(c)) + [QuotaStep(Quota.Count(c))]
  {
    hide Quota.Apply, Own;
    n := Redis.Get(d.s.quota.db, d.s.quota.calls[c].key, d.s.now) + 1;
    CallStep(d.s.quota, Quota.Count(c), d.s.now);
    ActCall(d, c, Quota.Count(c));
  }

  /** redis.pexpire, forty days from now. */
  method SetExpiry(d: Deployment, c: Quota.CallId, ghost tenant: TenantId, ghost limit: nat, ghost n: int)
    requires Calling(d, c, tenant, limit, Quota.Counted(n))
    modifies d`s, d`history
    ensures old(d.history) <= d.history && Calling(d, c, tenant, limit, Quota.Ready(n))
    ensures Own(d.history, QuotaCall(c)) == Own(old(d.history), QuotaCall(c)) + [QuotaStep(Quota.Arm(c))]
    ensures var key := d.s.quota.calls[c].key;
            Redis.Live(old(d.s.quota.db), key, old(d.s.now)) ==>
              d.s.quota.db == old(d.s.quota.db)[key :=
                Redis.Cell(old(d.s.quota.db)[key].value, Some(old(d.s.now) + 40 * 24 * 60 * 60 * 1000))]
  {
    if Redis.Live(d.s.quota.db, d.s.quota.calls[c].key, d.s.now) { Quota.ArmSets(d.s.quota, c, d.s.now); }
    hide Quota.Apply, Own, Redis.Live;
    CallStep(d.s.quota, Quota.Arm(c), d.s.now);
    ActCall(d, c, Quota.Arm(c));
  }

  method Compare(d: Deployment, c: Quota.CallId, ghost tenant: TenantId, limit: nat, n: int)
    requires Calling(d, c, tenant, limit, Quota.Ready(n))
    modifies d`s, d`history
    ensures old(d.history) <= d.history
    ensures Calling(d, c, tenant, limit, if n <= limit then Quota.Won(n) else Quota.RolledBack(n))
    ensures Own(d.history, QuotaCall(c))
            == Own(old(d.history), QuotaCall(c))
               + [QuotaStep(if n <= limit then Quota.Finish(c) else Quota.RollBack(c))]
  {
    hide Quota.Apply, Own;
    var q := if n > limit then Quota.RollBack(c) else Quota.Finish(c);
    CallStep(d.s.quota, q, d.s.now);
    ActCall(d, c, q);
  }

  /** The others run before the call has drawn on anything. */
  method BeforeCall(d: Deployment, c: Quota.CallId)
    requires d.Valid() && c !in d.s.quota.calls && c !in d.s.payments.Values
    modifies d`s, d`history
    ensures d.Valid() && old(d.history) <= d.history && c !in d.s.quota.calls && c !in d.s.payments.Values
  {
    hide Progress;
    d.Wait(QuotaCall(c));
  }

  /** The key is computed, from the clock as it is now. */
  method BeginCall(d: Deployment, c: Quota.CallId, tenant: TenantId, plan: Quota.Plan)
    requires d.Valid() && c !in d.s.quota.calls && c !in d.s.payments.Values
    modifies d`s, d`history
    ensures old(d.history) <= d.history && Calling(d, c, tenant, Limit(plan), Quota.Begun)
  {
    hide Quota.Apply, Limit, InMonth;
    BeforeCall(d, c);
    CallStep(d.s.quota, Quota.Begin(c, tenant, plan), d.s.now);
    ActCall(d, c, Quota.Begin(c, tenant, plan));
  }

  /** BillingService.consumeQuota: the limit is that of the tenant's plan when the row was read;
      the month is the one in which the key is computed afterwards. */
  method ConsumeQuota(d: Deployment, c: Quota.CallId, tenant: TenantId) returns (up: bool, refusal: Option<Response>)
    requires d.Valid() && c !in d.s.quota.calls && c !in d.s.payments.Values
    modifies d
    ensures if up then d.faults == old(d.faults) else old(d.faults) < d.faults
    ensures old(d.history) <= d.history && d.Valid()
    ensures refusal.Some? ==> refusal.value.NotFound? || refusal.value.PaymentRequired?
    ensures refusal == Some(NotFound) <==> tenant !in old(d.s.quota.plans)
    ensures refusal == Some(NotFound) ==> up
    ensures up && refusal.None? ==>
              exists n :: n <= Limit(old(d.s.quota.plans)[tenant])
                          && Calling(d, c, tenant, Limit(old(d.s.quota.plans)[tenant]), Quota.Won(n))
    ensures up && refusal == Some(PaymentRequired) ==>
              exists n :: n > Limit(old(d.s.quota.plans)[tenant])
                          && Calling(d, c, tenant, Limit(old(d.s.quota.plans)[tenant]), Quota.RolledBack(n))
  {
    if tenant !in d.s.quota.plans { return true, Some(NotFound); }
    var plan := d.s.quota.plans[tenant];
    var limit := Quota.MonthlyQuota(plan);
    assert limit == Limit(plan);
    hide Calling, Quota.MonthlyQuota, Limit, InMonth;
    BeginCall(d, c, tenant, plan);
    up := AwaitCall(d, c, tenant, limit, Quota.Begun);
    if !up { return up, None; }
    var n;
    up, n := IncrementAndCheck(d, c, tenant, limit);
    return up, if n <= limit then None else Some(PaymentRequired);
  }

  lemma OpenStep(cfg: Settings, s: State, call: Quota.CallId, token: Token, userHash: string, policyVersion: string)
    requires userHash != "" && !Text.AllBlank(policyVersion)
    requires call in s.quota.calls && s.quota.calls[call].pc.Won? && call !in s.payments.Values && token !in s.tokens
    ensures Enabled(cfg, s, OpenSession(call, token, userHash, policyVersion))
    ensures var t, tenant := Apply(cfg, s, OpenSession(call, token, userHash, policyVersion)),
                             s.quota.calls[call].key.tenant;
            && token in t.sessions && t.sessions[token] == Session(tenant, s.now)
            && token in t.consents && t.consents[token] == Consent(tenant, userHash, policyVersion, s.now)
            && token in t.payments && t.payments[token] == call && t.quota == s.quota
  {
  }

  /** What the body of a session request holds: its field names, and three of the fields, None where
      the value is no string. */
  datatype SessionBody = SessionBody(fields: seq<string>, userHash: Option<string>, policyVersion: Option<string>,
                                     consent: bool)

  /** Fields that would name the user. */
  const FORBIDDEN_PII_FIELDS: seq<string> := [
    "nome", "name", "cpf", "email", "e_mail", "telefone", "celular", "phone", "rg", "data_nascimento", "birth_date"]

  /** assertNoPii: whether it throws. */
  method HasPii(fields: seq<string>) returns (found: bool)
    ensures found <==> NamesUser(fields)
  {
    var keys := seq(|fields|, i requires 0 <= i < |fields| => Text.Lower(fields[i]));
    forall field ensures field in FORBIDDEN_PII_FIELDS <==> NamesPerson(field) { ForbiddenNamesPerson(field); }
    hide NamesPerson, Text.Lower;
    for i := 0 to |FORBIDDEN_PII_FIELDS|
      invariant forall k | 0 <= k < i :: FORBIDDEN_PII_FIELDS[k] !in keys
    {
      if FORBIDDEN_PII_FIELDS[i] in keys {
        var j :| 0 <= j < |keys| && keys[j] == FORBIDDEN_PII_FIELDS[i];
        assert NamesPerson(Text.Lower(fields[j]));
        return true;
      }
    }
    forall j | 0 <= j < |fields| ensures !NamesPerson(Text.Lower(fields[j])) {
      assert keys[j] in keys;
    }
    return false;
  }

  predicate NamesPerson(field: string) {
    field in {"nome", "name", "cpf", "email", "e_mail", "telefone", "celular", "phone", "rg", "data_nascimento",
              "birth_date"}
  }

  /** Some field names the user, in whatever case. */
  predicate NamesUser(fields: seq<string>) {
    exists i | 0 <= i < |fields| :: NamesPerson(Text.Lower(fields[i]))
  }

  lemma ForbiddenNamesPerson(field: string)
    ensures field in FORBIDDEN_PII_FIELDS <==> NamesPerson(field)
  {
    var all := FORBIDDEN_PII_FIELDS;
    assert all[0] == "nome";
    assert all[1] == "name";
    assert all[2] == "cpf";
    assert all[3] == "email";
    assert all[4] == "e_mail";
    assert all[5] == "telefone";
    assert all[6] == "celular";
    assert all[7] == "phone";
    assert all[8] == "rg";
    assert all[9] == "data_nascimento";
    assert all[10] == "birth_date";
  }

  /** The session may be opened as far as the body goes. */
  predicate Consenting(body: SessionBody) {
    && !NamesUser(body.fields) && NonEmpty(body.userHash) && body.consent
    && body.policyVersion.Some? && !Text.AllBlank(body.policyVersion.value)
  }

  /** The checks of the body, the first that fails first. */
  method CheckBody(body: SessionBody) returns (refusal: Option<Reason>)
    ensures refusal.None? <==> Consenting(body)
    ensures refusal == Some(PiiField) <==> NamesUser(body.fields)
    ensures refusal == Some(NoUserHash) <==> !NamesUser(body.fields) && !NonEmpty(body.userHash)
    ensures refusal == Some(NoPolicyVersion) <==>
              && !NamesUser(body.fields) && NonEmpty(body.userHash)
              && (body.policyVersion.Some? ==> Text.AllBlank(body.policyVersion.value))
    ensures refusal == Some(NoConsent) <==> !body.consent && Consenting(body.(consent := true))
    ensures refusal != Some(Malformed) && refusal != Some(InvalidToken) && refusal != Some(Expired)
  {
    var pii := HasPii(body.fields);
    if pii { return Some(PiiField); }
    if body.userHash.None? || body.userHash.value == "" { return Some(NoUserHash); }
    if body.policyVersion.None? { return Some(NoPolicyVersion); }
    var trimmed := Text.TrimRight(Text.TrimLeft(body.policyVersion.value));
    Text.TrimmedAway(body.policyVersion.value);
    if trimmed == "" { return Some(NoPolicyVersion); }
    if !body.consent { return Some(NoConsent); }
    return None;
  }

  /** SessionController.create: a body that fails the checks buys nothing; a created session is open,
      belongs to the tenant, was paid for by this very quota call, and its consent row, of the same
      instant, holds the user hash and the policy version of the body. */
  method CreateSession(d: Deployment, c: Quota.CallId, tenant: TenantId, body: SessionBody) returns (response: Response)
    requires d.Valid() && c !in d.s.quota.calls && c !in d.s.payments.Values
    modifies d
    ensures response == Unanswered <==> old(d.faults) < d.faults
    ensures old(d.faults) <= d.faults
    ensures old(d.history) <= d.history && d.Valid()
    ensures !Consenting(body) <==> response.BadRequest?
    ensures !Consenting(body) ==> d.history == old(d.history)
    ensures response == BadRequest(PiiField) <==> NamesUser(body.fields)
    ensures Consenting(body) ==> (response == NotFound <==> tenant !in old(d.s.quota.plans))
    ensures response.Created? ==>
              && Opened(d.s, response.token, tenant, body)
              && response.token in d.s.payments && d.s.payments[response.token] == c
              && c in d.s.quota.calls && d.s.quota.calls[c].pc.Won? && d.s.quota.calls[c].key.tenant == tenant
    ensures response.PaymentRequired? ==> c in d.s.quota.calls && d.s.quota.calls[c].pc.RolledBack?
  {
    var invalid := CheckBody(body);
    if invalid.Some? { return BadRequest(invalid.value); }
    hide Consenting, NamesUser;
    response := PayAndOpen(d, c, tenant, body);
  }

  /** What follows once the body is checked: the quota, then the session. */
  method PayAndOpen(d: Deployment, c: Quota.CallId, tenant: TenantId, body: SessionBody) returns (response: Response)
    requires d.Valid() && c !in d.s.quota.calls && c !in d.s.payments.Values && Consenting(body)
    modifies d
    ensures response == Unanswered <==> old(d.faults) < d.faults
    ensures old(d.faults) <= d.faults && old(d.history) <= d.history && d.Valid()
    ensures response.Unanswered? || response.NotFound? || response.PaymentRequired? || response.Created?
    ensures response == NotFound <==> tenant !in old(d.s.quota.plans)
    ensures response.Created? ==>
              && Opened(d.s, response.token, tenant, body)
              && response.token in d.s.payments && d.s.payments[response.token] == c
              && c in d.s.quota.calls && d.s.quota.calls[c].pc.Won? && d.s.quota.calls[c].key.tenant == tenant
    ensures response.PaymentRequired? ==> c in d.s.quota.calls && d.s.quota.calls[c].pc.RolledBack?
  {
    hide Limit, Consenting;
    var up, refusal := ConsumeQuota(d, c, tenant);
    if refusal == Some(NotFound) { return NotFound; }
    if !up { return Unanswered; }
    if refusal.Some? { return refusal.value; }
    ghost var n, limit :| Calling(d, c, tenant, limit, Quota.Won(n));
    up := AwaitCall(d, c, tenant, limit, Quota.Won(n));
    if !up { return Unanswered; }
    var token := SaveSession(d, c, tenant, body, limit, n);
    return Created(token);
  }

  /** The transaction that saves the session and its consent row. */
  method SaveSession(d: Deployment, c: Quota.CallId, ghost tenant: TenantId, body: SessionBody, ghost limit: nat,
                     ghost n: int)
    returns (token: Token)
    requires Consenting(body) && Calling(d, c, tenant, limit, Quota.Won(n))
    modifies d`s, d`history
    ensures old(d.history) <= d.history && d.Valid() && token !in old(d.s.tokens) && Opened(d.s, token, tenant, body)
    ensures token in d.s.payments && d.s.payments[token] == c && d.s.quota == old(d.s.quota)
  {
    hide Apply, Enabled, Text.AllBlank, NamesUser;
    SomeNatIsNew(d.s.tokens);
    token :| token !in d.s.tokens;
    OpenStep(d.cfg, d.s, c, token, body.userHash.value, body.policyVersion.value);
    d.Step(OpenSession(c, token, body.userHash.value, body.policyVersion.value));
  }

  /** The session with that token is open, and the consent row of the same instant is there. */
  predicate Opened(s: State, token: Token, tenant: TenantId, body: SessionBody)
    requires Consenting(body)
  {
    && token in s.sessions && s.sessions[token].tenant == tenant
    && token in s.consents && s.consents[token]
       == Consent(tenant, body.userHash.value, body.policyVersion.value, s.sessions[token].createdAt)
  }
}
