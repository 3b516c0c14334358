/**
  StartAgentResponse on one delivery: claim, create the card, send it, and what may be retried
  after a failure. An attempt is a function of the delivery, the request and its environment.
*/
module DeliveryStart {
  import opened Options
  import opened CardFailures
  import opened MessageWindow

  datatype StartState = NotStarted | Starting | Retryable | Started

  /** The UUID of the card message, as the tuple it is derived from. */
  datatype MessageUuid = MessageUuid(responseId: string, operationId: string)

  /** What the digest kept with a claim covers; the delivery itself is fixed. */
  datatype Fingerprint = Fingerprint(provider: string, card: string)

  datatype Opening = Opening(responseId: string, provider: string, cardId: string, messageId: string)

  /** `permitted` and `route` are fixed by the ingress event and the immutable configuration. */
  datatype Delivery = Delivery(
    permitted: set<string>,
    route: Option<string>,
    replyTo: string,
    state: StartState,
    provider: string,
    operationId: string,
    fingerprint: Fingerprint,
    responseId: string,
    messageUuid: MessageUuid,
    cardId: string,
    sendAmbiguousAt: Option<int>,
    sendRetryClosed: bool,
    sendRetryCode: StartError,
    response: Option<Opening>)

  datatype StartError =
    | NoError | UnknownDelivery | AlreadyResponded | OperationConflict | ResponseInFlight | Internal
    | SendRetryExpired | SendStateUnknown | FeishuUnavailable | FeishuRejected | OwnershipStoreUnavailable

  datatype StartReply = Opened(responseId: string, duplicate: bool) | Refused(code: StartError)

  datatype StartRequest = StartRequest(provider: string, operationId: string, card: string)

  datatype CreateOutcome = Created(cardId: string) | CreateFailed(failure: Failure)

  datatype SendOutcome = SentAs(messageId: string) | SendFailed(failure: Failure)

  /**
    Everything an attempt meets: a fresh handle (if randomness is available), the time of the
    retry check, the start of the send, the two Feishu outcomes, when the send landed at Feishu
    if it did, and whether the owner could be persisted.
  */
  datatype Env = Env(
    handle: Option<string>, now: int, create: CreateOutcome, sendAt: int, send: SendOutcome,
    landsAt: Option<int>, persisted: bool)

  datatype Send = Send(uuid: MessageUuid, cardId: string, startedAt: int, outcome: SendOutcome, landsAt: Option<int>)

  datatype StartResult = StartResult(delivery: Delivery, sends: seq<Send>, reply: StartReply)

  const NO_UUID := MessageUuid("", "")
  const NO_FINGERPRINT := Fingerprint("", "")

  function Received(permitted: set<string>, route: Option<string>, replyTo: string): Delivery {
    Delivery(permitted, route, replyTo, NotStarted, "", "", NO_FINGERPRINT, "", NO_UUID, "", None, false, NoError, None)
  }

  function AbortStart(d: Delivery): Delivery { Received(d.permitted, d.route, d.replyTo) }

  function CallError(f: Failure): StartError { if IsRetryable(f) then FeishuUnavailable else FeishuRejected }

  function Claim(d: Delivery, req: StartRequest, handle: string): Delivery {
    d.(provider := req.provider, operationId := req.operationId, fingerprint := Fingerprint(req.provider, req.card),
       responseId := handle, messageUuid := MessageUuid(handle, req.operationId))
  }

  /** The response handle is made, and what only a retry would need is dropped. */
  function Open(d: Delivery, provider: string, messageId: string): Delivery {
    d.(response := Some(Opening(d.responseId, provider, d.cardId, messageId)), state := Started,
       messageUuid := NO_UUID, cardId := "", sendAmbiguousAt := None,
       sendRetryClosed := false, sendRetryCode := NoError)
  }

  /** What a failed send leaves of the claim: closed for good, given back, or kept for a retry. */
  function AfterFailedSend(d: Delivery, f: Failure, sendAt: int): Delivery {
    if IsDefinitive(f) then
      if d.sendAmbiguousAt.Some? then d.(state := Retryable, sendRetryClosed := true, sendRetryCode := SendStateUnknown)
      else AbortStart(d)
    else
      d.(state := Retryable,
         sendAmbiguousAt := if IsAmbiguous(f) && d.sendAmbiguousAt.None? then Some(sendAt) else d.sendAmbiguousAt)
  }

  function FailedSendReply(d: Delivery, f: Failure): StartReply {
    Refused(if IsDefinitive(f) && d.sendAmbiguousAt.Some? then SendStateUnknown else CallError(f))
  }

  function SendCard(d: Delivery, provider: string, env: Env): StartResult {
    if d.route.None? then StartResult(AbortStart(d), [], Refused(UnknownDelivery))
    else
      var sends := [Send(d.messageUuid, d.cardId, env.sendAt, env.send, env.landsAt)];
      match env.send
      case SentAs(messageId) =>
        // without a message id no reference can be derived, and the attempt never ends
        if messageId == "" then StartResult(d, sends, Refused(Internal))
        else
          StartResult(Open(d, provider, messageId), sends,
                      if env.persisted then Opened(d.responseId, false) else Refused(OwnershipStoreUnavailable))
      case SendFailed(f) => StartResult(AfterFailedSend(d, f, env.sendAt), sends, FailedSendReply(d, f))
  }

  function CreateAndSend(d: Delivery, provider: string, env: Env): StartResult {
    if d.cardId != "" then SendCard(d, provider, env)
    else
      match env.create
      case Created(cardId) => SendCard(d.(cardId := cardId), provider, env)
      case CreateFailed(f) =>
        StartResult(if IsDefinitive(f) then AbortStart(d) else d.(state := Retryable), [], Refused(CallError(f)))
  }

  /** An attempt on a claimed delivery: closed, out of time, or one more creation and send. */
  function TryToSend(c: Delivery, provider: string, env: Env, sendTimeout: int): StartResult {
    if c.sendRetryClosed then StartResult(c, [], Refused(c.sendRetryCode))
    else if RetryWindowExhausted(env.now, sendTimeout, c.sendAmbiguousAt) then
      StartResult(c.(sendRetryClosed := true, sendRetryCode := SendRetryExpired), [], Refused(SendRetryExpired))
    else CreateAndSend(c.(state := Starting), provider, env)
  }

  function Start(d: Delivery, req: StartRequest, env: Env, sendTimeout: int): StartResult {
    if req.provider !in d.permitted then StartResult(d, [], Refused(UnknownDelivery))
    else if d.operationId != "" && d.operationId != req.operationId then StartResult(d, [], Refused(AlreadyResponded))
    else if d.operationId != "" && d.fingerprint != Fingerprint(req.provider, req.card) then
      StartResult(d, [], Refused(OperationConflict))
    else if d.operationId != "" && d.response.Some? then
      StartResult(d, [],
                  if env.persisted then Opened(d.response.value.responseId, true)
                  else Refused(OwnershipStoreUnavailable))
    else if d.operationId != "" && d.state == Starting then StartResult(d, [], Refused(ResponseInFlight))
    else if d.operationId == "" && env.handle.None? then StartResult(d, [], Refused(Internal))
    else
      TryToSend(if d.operationId == "" then Claim(d, req, env.handle.value) else d, req.provider, env, sendTimeout)
  }

  // ---------------------------------------------------------------- runs

  /** The two calls share one deadline; a send whose answer leaves open what became of it may land before it. */
  predicate Possible(env: Env, sendTimeout: int) {
    && env.now <= env.sendAt
    && (env.create.Created? ==> env.create.cardId != "")
    && (env.send.SentAs? ==> env.landsAt.Some?)
    && (env.send.SendFailed? && !LeavesOpen(env.send.failure) ==> env.landsAt.None?)
    && (env.landsAt.Some? ==> env.sendAt <= env.landsAt.value <= env.now + if sendTimeout < 0 then 0 else sendTimeout)
  }

  datatype Attempt = Attempt(request: StartRequest, env: Env)

  datatype History = History(delivery: Delivery, sends: seq<Send>, clock: int)

  function After(h: History, a: Attempt, sendTimeout: int): History {
    var out := Start(h.delivery, a.request, a.env, sendTimeout);
    History(out.delivery, h.sends + out.sends, a.env.sendAt)
  }

  predicate PossibleRun(h: History, attempts: seq<Attempt>, sendTimeout: int)
    decreases |attempts|
  {
    attempts == []
    || (Possible(attempts[0].env, sendTimeout) && h.clock <= attempts[0].env.now
        && attempts[0].request.operationId != ""
        && PossibleRun(After(h, attempts[0], sendTimeout), attempts[1..], sendTimeout))
  }

  function Run(h: History, attempts: seq<Attempt>, sendTimeout: int): History
    decreases |attempts|
  {
    if attempts == [] then h else Run(After(h, attempts[0], sendTimeout), attempts[1..], sendTimeout)
  }

  /** The effects the sends had at Feishu. */
  function Landings(sends: seq<Send>): seq<Landing<MessageUuid>> {
    if sends == [] then []
    else
      var last := sends[|sends| - 1];
      Landings(sends[..|sends| - 1]) + if last.landsAt.Some? then [Landing(last.uuid, last.landsAt.value)] else []
  }

  // ---------------------------------------------------------------- what every state keeps

  predicate OnOneMessage(landings: seq<Landing<MessageUuid>>, uuid: MessageUuid, first: int, sendTimeout: int) {
    && (forall i :: 0 <= i < |landings| ==> landings[i].uuid == uuid && first <= landings[i].at)
    && (|landings| > 1 ==> forall i :: 0 <= i < |landings| ==> landings[i].at < first + WINDOW)
    && (forall i :: 0 <= i < |landings| ==>
          landings[i].at < first + WINDOW || landings[i].at <= first + if sendTimeout < 0 then 0 else sendTimeout)
  }

  ghost predicate Inv(h: History, sendTimeout: int) {
    var d := h.delivery;
    && (d.operationId == "" ==> d == AbortStart(d))
    && (d.operationId != "" ==> d.fingerprint.provider == d.provider && d.provider in d.permitted)
    && (d.sendRetryClosed ==> d.sendAmbiguousAt.Some? && d.response.None?)
    && (d.sendAmbiguousAt.Some? ==>
          && d.response.None? && d.route.Some? && d.cardId != "" && d.operationId != ""
          && d.sendAmbiguousAt.value <= h.clock
          && OnOneMessage(Landings(h.sends), d.messageUuid, d.sendAmbiguousAt.value, sendTimeout))
    && (d.sendAmbiguousAt.None? && d.response.None? && d.state != Starting ==> Landings(h.sends) == [])
    && (d.state == Starting ==> d.operationId != "" && d.response.None?)
    && (d.state == Starting ==> exists uuid, first :: OnOneMessage(Landings(h.sends), uuid, first, sendTimeout))
    && (d.response.Some? ==>
          d.operationId != "" && d.response.value.provider == d.provider && d.response.value.responseId == d.responseId
          && exists uuid, first :: OnOneMessage(Landings(h.sends), uuid, first, sendTimeout))
  }

  lemma LandingsOfMore(sends: seq<Send>, s: Send)
    ensures Landings(sends + [s])
      == Landings(sends) + if s.landsAt.Some? then [Landing(s.uuid, s.landsAt.value)] else []
  {
    assert (sends + [s])[..|sends|] == sends;
  }

  /** One more send under the claim's UUID, inside the window, stays on the one message. */
  lemma SendStaysOnOneMessage(h: History, uuid: MessageUuid, since: Option<int>, s: Send, now: int, sendTimeout: int)
    requires since.Some? ==> OnOneMessage(Landings(h.sends), uuid, since.value, sendTimeout) && since.value <= now
    requires since.None? ==> Landings(h.sends) == []
    requires s.uuid == uuid && now <= s.startedAt && !RetryWindowExhausted(now, sendTimeout, since)
    requires s.landsAt.Some? ==> s.startedAt <= s.landsAt.value <= now + if sendTimeout < 0 then 0 else sendTimeout
    ensures OnOneMessage(Landings(h.sends + [s]), uuid, if since.Some? then since.value else s.startedAt, sendTimeout)
    ensures s.landsAt.None? ==> Landings(h.sends + [s]) == Landings(h.sends)
  {
    LandingsOfMore(h.sends, s);
  }

  lemma SendKeepsInv(h: History, d: Delivery, provider: string, env: Env, sendTimeout: int)
    requires Inv(h, sendTimeout) && Possible(env, sendTimeout) && h.clock <= env.now
    requires d.fingerprint.provider == d.provider == provider && provider in d.permitted
    requires h.delivery.response.None? && h.delivery.state != Starting && d.operationId != "" && d.cardId != ""
      && d.state == Starting && !d.sendRetryClosed
    requires d.response.None? && d.sendAmbiguousAt == h.delivery.sendAmbiguousAt && d.route == h.delivery.route
    requires d.sendAmbiguousAt.Some? ==> d.messageUuid == h.delivery.messageUuid
    requires !RetryWindowExhausted(env.now, sendTimeout, d.sendAmbiguousAt)
    ensures var out := SendCard(d, provider, env);
      Inv(History(out.delivery, h.sends + out.sends, env.sendAt), sendTimeout)
  {
    hide OnOneMessage, Landings;
    var out := SendCard(d, provider, env);
    if d.route.Some? {
      SendStaysOnOneMessage(h, d.messageUuid, d.sendAmbiguousAt, out.sends[0], env.now, sendTimeout);
    } else {
      assert h.sends + [] == h.sends;
    }
  }

  lemma CreateAndSendKeepsInv(h: History, c: Delivery, a: Attempt, sendTimeout: int)
    requires Inv(h, sendTimeout) && Possible(a.env, sendTimeout) && h.clock <= a.env.now && a.request.operationId != ""
    requires h.delivery.response.None? && h.delivery.state != Starting
    requires c == (if h.delivery.operationId == "" then Claim(h.delivery, a.request, c.responseId) else h.delivery)
    requires c.operationId != "" && c.fingerprint.provider == c.provider == a.request.provider
      && c.provider in c.permitted
    requires !c.sendRetryClosed && !RetryWindowExhausted(a.env.now, sendTimeout, c.sendAmbiguousAt)
    ensures var out := CreateAndSend(c.(state := Starting), a.request.provider, a.env);
      Inv(History(out.delivery, h.sends + out.sends, a.env.sendAt), sendTimeout)
  {
    hide SendCard, OnOneMessage, Landings;
    if c.cardId != "" {
      SendKeepsInv(h, c.(state := Starting), a.request.provider, a.env, sendTimeout);
    } else if a.env.create.Created? {
      SendKeepsInv(h, c.(state := Starting, cardId := a.env.create.cardId), a.request.provider, a.env, sendTimeout);
    } else {
      assert h.sends + [] == h.sends;
    }
  }

  lemma AfterKeepsInv(h: History, a: Attempt, sendTimeout: int)
    requires Inv(h, sendTimeout) && Possible(a.env, sendTimeout) && h.clock <= a.env.now && a.request.operationId != ""
    ensures Inv(After(h, a, sendTimeout), sendTimeout)
  {
    hide CreateAndSend, OnOneMessage, Landings;
    var d := h.delivery;
    assert h.sends + [] == h.sends;
    if a.request.provider in d.permitted && d.response.None? && (d.operationId == "" ==> a.env.handle.Some?)
       && (d.operationId != "" ==> d.operationId == a.request.operationId && d.state != Starting)
       && (d.operationId != "" ==> d.fingerprint == Fingerprint(a.request.provider, a.request.card)) {
      var c := if d.operationId == "" then Claim(d, a.request, a.env.handle.value) else d;
      if !c.sendRetryClosed && !RetryWindowExhausted(a.env.now, sendTimeout, c.sendAmbiguousAt) {
        CreateAndSendKeepsInv(h, c, a, sendTimeout);
      }
    }
  }

  lemma {:induction false} RunKeepsInv(h: History, attempts: seq<Attempt>, sendTimeout: int)
    requires Inv(h, sendTimeout) && PossibleRun(h, attempts, sendTimeout)
    ensures Inv(Run(h, attempts, sendTimeout), sendTimeout)
    decreases |attempts|
  {
    if attempts != [] {
      AfterKeepsInv(h, attempts[0], sendTimeout);
      RunKeepsInv(After(h, attempts[0], sendTimeout), attempts[1..], sendTimeout);
    }
  }

  lemma ReceivedInv(permitted: set<string>, route: Option<string>, replyTo: string, clock: int, sendTimeout: int)
    ensures Inv(History(Received(permitted, route, replyTo), [], clock), sendTimeout)
  {
  }

  // ---------------------------------------------------------------- main results

  lemma OneMessageOnly(landings: seq<Landing<MessageUuid>>, uuid: MessageUuid, first: int, sendTimeout: int)
    requires OnOneMessage(landings, uuid, first, sendTimeout)
    ensures forall k :: 0 <= k < |landings| ==> landings[k].uuid == uuid && first <= landings[k].at
    ensures |landings| > 1 ==> forall k :: 0 <= k < |landings| ==> landings[k].at < first + WINDOW
  {
  }

  /**
    Any run of start attempts on one delivery, with any failures, timeouts and late effects:
    every send that ever took effect did so under one UUID, and however the effects fell in
    time at most one message appeared in the chat.
  */
  lemma AtMostOneMessage(permitted: set<string>, route: Option<string>, replyTo: string, clock: int,
                         attempts: seq<Attempt>, sendTimeout: int, order: seq<Landing<MessageUuid>>)
    requires var start := History(Received(permitted, route, replyTo), [], clock);
      && PossibleRun(start, attempts, sendTimeout)
      && multiset(order) == multiset(Landings(Run(start, attempts, sendTimeout).sends))
    ensures forall i, j :: 0 <= i < |order| && 0 <= j < |order| ==> order[i].uuid == order[j].uuid
    ensures |Posted(order)| <= 1
    ensures order != [] ==> |Posted(order)| == 1
  {
    var start := History(Received(permitted, route, replyTo), [], clock);
    ReceivedInv(permitted, route, replyTo, clock, sendTimeout);
    RunKeepsInv(start, attempts, sendTimeout);
    var h := Run(start, attempts, sendTimeout);
    var landings := Landings(h.sends);
    assert |order| == |multiset(order)| == |landings|;
    if landings != [] {
      var uuid, first: int :| OnOneMessage(landings, uuid, first, sendTimeout);
      OneMessageOnly(landings, uuid, first, sendTimeout);
      forall i | 0 <= i < |order|
        ensures order[i].uuid == uuid && (|order| > 1 ==> first <= order[i].at < first + WINDOW)
      {
        assert order[i] in multiset(order);
        var j :| 0 <= j < |landings| && landings[j] == order[i];
      }
      if |order| == 1 {
        NoMoreMessagesThanLandings(order);
        assert Posted(order[..0]) == [];
      } else {
        OneMessageAtMost(order, uuid, first);
      }
    }
  }

  /**
    From an ambiguous send on, and until a response opens, the claim, the card and the message
    UUID never change: every further send reuses them, and none goes out whose latest effect
    could miss the dedupe window of the first. Once retries are closed nothing is sent any more.
  */
  lemma AmbiguityPinsTheMessage(h: History, a: Attempt, sendTimeout: int)
    requires Inv(h, sendTimeout) && h.delivery.sendAmbiguousAt.Some?
    ensures var d, out := h.delivery, Start(h.delivery, a.request, a.env, sendTimeout);
      && (forall i :: 0 <= i < |out.sends| ==>
            out.sends[i].uuid == d.messageUuid && out.sends[i].cardId == d.cardId
            && a.env.now + (if sendTimeout < 0 then 0 else sendTimeout) < d.sendAmbiguousAt.value + WINDOW)
      && out.delivery.operationId == d.operationId && out.delivery.responseId == d.responseId
      && (out.delivery.response.None? ==>
            out.delivery.messageUuid == d.messageUuid && out.delivery.cardId == d.cardId
            && out.delivery.sendAmbiguousAt == d.sendAmbiguousAt)
      && (d.sendRetryClosed ==> out.delivery == d && out.sends == [])
  {
  }

  /** A claim is given back only while nothing sent under it, or ever before, can have landed. */
  lemma WithdrawalLeavesNothingBehind(h: History, a: Attempt, sendTimeout: int)
    requires Inv(h, sendTimeout) && Possible(a.env, sendTimeout) && h.clock <= a.env.now && a.request.operationId != ""
    requires h.delivery.operationId != "" && After(h, a, sendTimeout).delivery.operationId == ""
    ensures h.delivery.sendAmbiguousAt.None? && h.delivery.response.None?
    ensures Landings(After(h, a, sendTimeout).sends) == []
  {
    AfterKeepsInv(h, a, sendTimeout);
  }

  /** Once a response is open every later attempt leaves it alone, and none sends again. */
  lemma {:induction false} OpeningIsForever(h: History, attempts: seq<Attempt>, sendTimeout: int)
    requires Inv(h, sendTimeout) && h.delivery.response.Some?
    ensures Run(h, attempts, sendTimeout).delivery == h.delivery && Run(h, attempts, sendTimeout).sends == h.sends
    decreases |attempts|
  {
    if attempts != [] {
      assert h.sends + [] == h.sends;
      var next := After(h, attempts[0], sendTimeout);
      assert Inv(next, sendTimeout);
      OpeningIsForever(next, attempts[1..], sendTimeout);
    }
  }

  /**
    The retry rule of Start is exact. Its clock is the start of the first ambiguous attempt, the
    earliest moment the message can have appeared, so a retry is let through iff even its latest
    effect would still meet a message posted at that moment inside Feishu's window.
  */
  lemma RetryRuleIsExact(now: int, sendTimeout: int, startedAt: int)
    requires sendTimeout >= 0
    ensures !RetryWindowExhausted(now, sendTimeout, Some(startedAt)) <==>
      forall posted, effect :: startedAt <= posted && now <= effect <= now + sendTimeout && posted <= effect ==>
        |Posted([Landing("m", posted), Landing("m", effect)])| == 1
  {
    forall posted, effect | startedAt <= posted && posted <= effect
      ensures |Posted([Landing("m", posted), Landing("m", effect)])| == 1 <==> effect < posted + WINDOW
    {
      PostedPair("m", posted, effect);
    }
    if RetryWindowExhausted(now, sendTimeout, Some(startedAt)) {
      PostedPair("m", startedAt, now + sendTimeout);
    }
  }
}
