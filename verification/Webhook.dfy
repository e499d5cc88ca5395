/** Delivery of one webhook: the same signed body, again and again, until it is accepted. */
module Webhook {
  import opened Wrappers

  datatype Message = Message(url: string, body: string, signature: string)

  /** What fetch comes to: a response, of which only `ok` and the status matter, or a throw. */
  datatype Answer = Response(ok: bool, status: int) | NetworkError

  datatype Failure = LastAnswer(a: Answer) | NeverTried

  datatype Delivery = Delivery(message: Message, answer: Answer, at: int)

  class WebhookService {
    const retries: int
    const delayMs: int
    const sign: (string, string) -> string   // HMAC of body and secret
    var now: int
    ghost var sent: seq<Delivery>

    constructor (retries: int, delayMs: int, sign: (string, string) -> string, now: int)
      ensures this.retries == retries && this.delayMs == delayMs && this.sign == sign && sent == []
    {
      this.retries, this.delayMs, this.sign, this.now, sent := retries, delayMs, sign, now, [];
    }

    /** One request; the clock moves on while it is under way. */
    method Fetch(m: Message) returns (a: Answer)
      modifies this
      ensures old(now) <= now && sent == old(sent) + [Delivery(m, a, old(now))]
    {
      a := *;
      sent := sent + [Delivery(m, a, now)];
      var d: nat :| true;
      now := now + d;
    }

    /** dispatch: identical requests, none after an accepted one, at most retries + 1 of them and
        exactly that many when it throws, with the pause in between. A request is accepted by a response
        that is ok; anything else, a response that is not ok or no response, is a refusal. */
    method Dispatch(url: string, secret: string, body: string) returns (r: Result<(), Failure>)
      modifies this
      ensures old(sent) <= sent
      ensures var mine := sent[|old(sent)|..];
              && (forall i | 0 <= i < |mine| :: mine[i].message == Message(url, body, sign(body, secret)))
              && (forall i | 0 <= i < |mine| - 1 :: mine[i].answer.NetworkError? || !mine[i].answer.ok)
              && Paced(mine, delayMs)
              && |mine| <= (if retries < 0 then 0 else retries + 1)
              && (r.Ok? <==> mine != [] && mine[|mine| - 1].answer.Response? && mine[|mine| - 1].answer.ok)
              && (r.Err? ==> |mine| == (if retries < 0 then 0 else retries + 1))
              && (r == Err(NeverTried) <==> retries < 0)
              && (r.Err? && mine != [] ==> r == Err(LastAnswer(mine[|mine| - 1].answer)))
    {
      hide Paced;
      var message := Message(url, body, sign(body, secret));
      NoneYet(delayMs);
      var lastErr: Option<Failure> := None;
      var attempt := 0;
      ghost var mine: seq<Delivery> := [];
      while attempt <= retries
        invariant sent == old(sent) + mine && |mine| == attempt <= if retries < 0 then 0 else retries + 1
        invariant forall i | 0 <= i < |mine| :: mine[i].message == message
        invariant forall i | 0 <= i < |mine| :: mine[i].answer.NetworkError? || !mine[i].answer.ok
        invariant Paced(mine, delayMs)
        invariant attempt > 0 && attempt <= retries && delayMs > 0 ==> mine[|mine| - 1].at + delayMs <= now
        invariant lastErr == if attempt == 0 then None else Some(LastAnswer(mine[|mine| - 1].answer))
      {
        ghost var before := now;
        var a := Fetch(message);
        OneMore(mine, Delivery(message, a, before), delayMs);
        mine := mine + [Delivery(message, a, before)];
        assert sent[|old(sent)|..] == mine;
        if a.Response? && a.ok { return Ok(()); }
        lastErr := Some(LastAnswer(a));
        if attempt < retries && delayMs > 0 {
          var d: nat :| d >= delayMs;
          now := now + d;
        }
        attempt := attempt + 1;
      }
      assert sent[|old(sent)|..] == mine;
      return Err(if lastErr.Some? then lastErr.value else NeverTried);
    }
  }

  /** At least that long between one request and the next. */
  predicate Paced(mine: seq<Delivery>, delayMs: int) {
    forall i | 0 < i < |mine| :: delayMs > 0 ==> mine[i - 1].at + delayMs <= mine[i].at
  }

  lemma NoneYet(delayMs: int)
    ensures Paced([], delayMs)
  {
  }

  lemma OneMore(mine: seq<Delivery>, d: Delivery, delayMs: int)
    requires Paced(mine, delayMs) && (mine != [] && delayMs > 0 ==> mine[|mine| - 1].at + delayMs <= d.at)
    ensures Paced(mine + [d], delayMs)
  {
  }
}
