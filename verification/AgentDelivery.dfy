/** The delivery object, claimed and advanced in place by each start attempt. */
module AgentDeliveries {
  import opened Options
  import opened CardFailures
  import opened MessageWindow
  import opened DeliveryStart

  class AgentDelivery {
    const permitted: set<string>
    const route: Option<string>
    const replyTo: string
    var state: StartState
    var provider: string
    var operationId: string
    var fingerprint: Fingerprint
    var responseId: string
    var messageUuid: MessageUuid
    var cardId: string
    var sendAmbiguousAt: Option<int>
    var sendRetryClosed: bool
    var sendRetryCode: StartError
    var response: Option<Opening>
    /** Every card message sent so far. */
    ghost var sends: seq<Send>

    constructor (permitted: set<string>, route: Option<string>, replyTo: string)
      ensures State() == Received(permitted, route, replyTo) && sends == []
    {
      this.permitted, this.route, this.replyTo := permitted, route, replyTo;
      state, provider, operationId, fingerprint, responseId := NotStarted, "", "", NO_FINGERPRINT, "";
      messageUuid, cardId, sendAmbiguousAt := NO_UUID, "", None;
      sendRetryClosed, sendRetryCode, response, sends := false, NoError, None, [];
    }

    ghost function State(): Delivery
      reads this
    {
      Delivery(permitted, route, replyTo, state, provider, operationId, fingerprint, responseId, messageUuid, cardId,
               sendAmbiguousAt, sendRetryClosed, sendRetryCode, response)
    }

    method AbortStartAttempt()
      modifies this
      ensures State() == Received(permitted, route, replyTo) && sends == old(sends)
    {
      state, provider, operationId, fingerprint, responseId := NotStarted, "", "", NO_FINGERPRINT, "";
      messageUuid, cardId, sendAmbiguousAt := NO_UUID, "", None;
      sendRetryClosed, sendRetryCode, response := false, NoError, None;
    }

    method CompactAfterStart()
      modifies this`messageUuid, this`cardId, this`sendAmbiguousAt, this`sendRetryClosed, this`sendRetryCode
      ensures messageUuid == NO_UUID && cardId == "" && sendAmbiguousAt.None? && !sendRetryClosed
        && sendRetryCode == NoError
    {
      messageUuid, cardId, sendAmbiguousAt, sendRetryClosed, sendRetryCode := NO_UUID, "", None, false, NoError;
    }

    /** One start attempt: exactly one step of the start protocol, and the sends that go with it. */
    method StartAgentResponse(req: StartRequest, env: Env, sendTimeout: int) returns (reply: StartReply)
      modifies this
      ensures var out := Start(old(State()), req, env, sendTimeout);
        State() == out.delivery && sends == old(sends) + out.sends && reply == out.reply
    {
      hide TryToSend;
      assert sends == sends + [];
      var digest := Fingerprint(req.provider, req.card);
      if req.provider !in permitted { return Refused(UnknownDelivery); }
      if operationId != "" {
        if operationId != req.operationId { return Refused(AlreadyResponded); }
        if fingerprint != digest { return Refused(OperationConflict); }
        if response.Some? {
          if !env.persisted { return Refused(OwnershipStoreUnavailable); }
          return Opened(response.value.responseId, true);
        }
        if state == Starting { return Refused(ResponseInFlight); }
      } else {
        if env.handle.None? { return Refused(Internal); }
        provider, operationId, fingerprint, responseId := req.provider, req.operationId, digest, env.handle.value;
        messageUuid := MessageUuid(responseId, operationId);
      }
      reply := CheckThenSend(req.provider, env, sendTimeout);
    }

    /** Nothing is sent once retries are closed, or when the retry window is over. */
    method CheckThenSend(owner: string, env: Env, sendTimeout: int) returns (reply: StartReply)
      modifies this
      ensures var out := TryToSend(old(State()), owner, env, sendTimeout);
        State() == out.delivery && sends == old(sends) + out.sends && reply == out.reply
    {
      hide CreateAndSend;
      assert sends == sends + [];
      if sendRetryClosed { return Refused(sendRetryCode); }
      if RetryWindowExhausted(env.now, sendTimeout, sendAmbiguousAt) {
        sendRetryClosed, sendRetryCode := true, SendRetryExpired;
        return Refused(sendRetryCode);
      }
      state := Starting;
      reply := CreateThenSend(owner, env);
    }

    /** Creates the card unless an earlier attempt did, then sends it. */
    method CreateThenSend(owner: string, env: Env) returns (reply: StartReply)
      modifies this
      ensures var out := CreateAndSend(old(State()), owner, env);
        State() == out.delivery && sends == old(sends) + out.sends && reply == out.reply
    {
      hide SendCard;
      assert sends == sends + [];
      if cardId == "" {
        match env.create {
          case CreateFailed(f) =>
            if IsCardApiRejection(f) && !IsRetryable(f) { AbortStartAttempt(); } else { state := Retryable; }
            return Refused(CallError(f));
          case Created(id) => cardId := id;
        }
      }
      reply := SendOnce(owner, env);
    }

    /** What a failed send does to the claim: closes it, gives it back, or keeps it for a retry. */
    method FailSend(f: Failure, sendAt: int) returns (reply: StartReply)
      modifies this
      ensures State() == AfterFailedSend(old(State()), f, sendAt) && sends == old(sends)
      ensures reply == FailedSendReply(old(State()), f)
    {
      if IsCardApiRejection(f) && !IsRetryable(f) {
        if sendAmbiguousAt.Some? {
          state, sendRetryClosed, sendRetryCode := Retryable, true, SendStateUnknown;
          return Refused(sendRetryCode);
        }
        AbortStartAttempt();
      } else {
        if IsAmbiguous(f) && sendAmbiguousAt.None? { sendAmbiguousAt := Some(sendAt); }
        state := Retryable;
      }
      return Refused(CallError(f));
    }

    /** The send of an attempt that has a card: success opens the response. */
    method SendOnce(owner: string, env: Env) returns (reply: StartReply)
      modifies this
      ensures var out := SendCard(old(State()), owner, env);
        State() == out.delivery && sends == old(sends) + out.sends && reply == out.reply
    {
      if route.None? {
        AbortStartAttempt();
        assert sends == sends + [];
        return Refused(UnknownDelivery);
      }
      hide CreateAndSend, Start, Inv, AfterFailedSend, FailedSendReply;
      sends := sends + [Send(messageUuid, cardId, env.sendAt, env.send, env.landsAt)];
      match env.send
      case SendFailed(f) => reply := FailSend(f, env.sendAt);
      case SentAs(messageId) =>
        if messageId == "" { return Refused(Internal); }
        response := Some(Opening(responseId, owner, cardId, messageId));
        state := Started;
        CompactAfterStart();
        if !env.persisted { return Refused(OwnershipStoreUnavailable); }
        return Opened(responseId, false);
    }
  }
}
