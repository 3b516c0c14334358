/**
  What start attempts on one delivery are answered, over whole runs: where everything in an open
  response comes from, what every later attempt gets, and which failure has which answer.
*/
module StartAnswers {
  import opened Options
  import opened CardFailures
  import opened MessageWindow
  import opened DeliveryStart

  /** The delivery before the k-th attempt. */
  function Before(start: History, attempts: seq<Attempt>, k: nat, sendTimeout: int): Delivery
    requires k <= |attempts|
  {
    Run(start, attempts[..k], sendTimeout).delivery
  }

  function ReplyTo(start: History, attempts: seq<Attempt>, k: nat, sendTimeout: int): StartReply
    requires k < |attempts|
  {
    Start(Before(start, attempts, k, sendTimeout), attempts[k].request, attempts[k].env, sendTimeout).reply
  }

  lemma {:induction false} RunOneMore(h: History, attempts: seq<Attempt>, a: Attempt, sendTimeout: int)
    ensures Run(h, attempts + [a], sendTimeout) == After(Run(h, attempts, sendTimeout), a, sendTimeout)
    decreases |attempts|
  {
    if attempts == [] {
      assert [a][1..] == [] && attempts + [a] == [a];
    } else {
      assert (attempts + [a])[1..] == attempts[1..] + [a];
      RunOneMore(After(h, attempts[0], sendTimeout), attempts[1..], a, sendTimeout);
    }
  }

  lemma StepOf(start: History, attempts: seq<Attempt>, k: nat, sendTimeout: int)
    requires k < |attempts|
    ensures Before(start, attempts, k + 1, sendTimeout)
         == Start(Before(start, attempts, k, sendTimeout), attempts[k].request, attempts[k].env, sendTimeout).delivery
    ensures Run(start, attempts[..k + 1], sendTimeout)
         == After(Run(start, attempts[..k], sendTimeout), attempts[k], sendTimeout)
  {
    assert attempts[..k + 1] == attempts[..k] + [attempts[k]];
    RunOneMore(start, attempts[..k], attempts[k], sendTimeout);
  }

  // ---------------------------------------------------------------- where everything comes from

  /** A delivery nobody has claimed is as it was received. */
  predicate Clean(d: Delivery) { d.operationId == "" ==> d == AbortStart(d) }

  predicate SameClaim(d: Delivery, e: Delivery) {
    d.provider == e.provider && d.operationId == e.operationId && d.fingerprint == e.fingerprint
    && d.responseId == e.responseId
  }

  predicate ClaimedBy(d: Delivery, a: Attempt) {
    && a.request.operationId != "" && a.request.provider in d.permitted
    && d.provider == a.request.provider && d.operationId == a.request.operationId
    && d.fingerprint == Fingerprint(a.request.provider, a.request.card)
    && a.env.handle == Some(d.responseId)
  }

  /** An attempt of the very request that claimed the delivery. */
  predicate Repeats(d: Delivery, a: Attempt) {
    d.provider == a.request.provider && d.operationId == a.request.operationId
    && d.fingerprint == Fingerprint(a.request.provider, a.request.card)
  }

  /** What one attempt does to a claim, its card and its response. */
  ghost predicate Traces(d: Delivery, a: Attempt, e: Delivery) {
    && Clean(e) && e.permitted == d.permitted && e.route == d.route
    && (e.operationId != "" ==> if d.operationId == "" then ClaimedBy(e, a) else SameClaim(d, e))
    && (e.operationId != "" && e.response.None? ==> e.messageUuid == MessageUuid(e.responseId, e.operationId))
    && (e.cardId != "" && e.cardId != d.cardId ==> d.cardId == "" && a.env.create == Created(e.cardId))
    && (e.response.Some? && e.response != d.response ==>
          && d.response.None? && e.operationId != "" && Repeats(e, a)
          && e.response.value.responseId == e.responseId && e.response.value.provider == a.request.provider
          && a.env.send == SentAs(e.response.value.messageId)
          && (if d.cardId != "" then e.response.value.cardId == d.cardId
              else a.env.create == Created(e.response.value.cardId)))
    && (d.response.Some? ==> e == d)
    && (e.response.Some? ==> e.operationId != "" && e.cardId == "")
  }

  ghost predicate Traceable(d: Delivery) {
    && Clean(d)
    && (d.operationId != "" && d.response.None? ==> d.messageUuid == MessageUuid(d.responseId, d.operationId))
    && (d.operationId != "" ==> d.fingerprint.provider == d.provider)
    && (d.response.Some? ==> d.operationId != "" && d.cardId == "")
    && (d.sendRetryClosed ==> d.sendRetryCode in {SendRetryExpired, SendStateUnknown})
  }

  /** Whatever an attempt sends goes out under its claim's UUID, with the claim's card. */
  ghost predicate SendsOf(d: Delivery, a: Attempt, sends: seq<Send>) {
    forall i :: 0 <= i < |sends| ==>
      var s := sends[i];
      && s.outcome == a.env.send && s.startedAt == a.env.sendAt && s.landsAt == a.env.landsAt
      && s.uuid.operationId == a.request.operationId
      && (if d.operationId == "" then a.env.handle == Some(s.uuid.responseId) else s.uuid.responseId == d.responseId)
      && (if d.cardId != "" then s.cardId == d.cardId else a.env.create == Created(s.cardId))
  }

  lemma SendTraces(d: Delivery, a: Attempt)
    requires Traceable(d) && Repeats(d, a) && d.operationId != "" && d.response.None? && !d.sendRetryClosed
    ensures var out := SendCard(d, a.request.provider, a.env); var e := out.delivery;
      && Traceable(e) && e.permitted == d.permitted && e.route == d.route
      && (e.operationId != "" ==> SameClaim(d, e) && (e.response.None? ==> e.cardId == d.cardId))
      && (e.response.Some? ==>
            e.operationId != "" && a.env.send == SentAs(e.response.value.messageId)
            && e.response.value == Opening(d.responseId, a.request.provider, d.cardId, e.response.value.messageId))
      && (forall i :: 0 <= i < |out.sends| ==>
            out.sends[i] == Send(d.messageUuid, d.cardId, a.env.sendAt, a.env.send, a.env.landsAt))
  {
  }

  lemma CreationTraces(c: Delivery, a: Attempt, sendTimeout: int)
    requires Traceable(c) && Repeats(c, a) && c.operationId != "" && c.response.None?
    ensures var out := TryToSend(c, a.request.provider, a.env, sendTimeout);
      Traces(c, a, out.delivery) && Traceable(out.delivery) && SendsOf(c, a, out.sends)
  {
    hide SendCard;
    var d := c.(state := Starting);
    if c.sendRetryClosed || RetryWindowExhausted(a.env.now, sendTimeout, c.sendAmbiguousAt) {
    } else if c.cardId != "" {
      SendTraces(d, a);
    } else if a.env.create.Created? {
      SendTraces(d.(cardId := a.env.create.cardId), a);
    }
  }

  lemma AttemptTraces(d: Delivery, a: Attempt, sendTimeout: int)
    requires Traceable(d) && a.request.operationId != ""
    ensures var out := Start(d, a.request, a.env, sendTimeout);
      Traces(d, a, out.delivery) && Traceable(out.delivery) && SendsOf(d, a, out.sends)
  {
    hide TryToSend;
    if a.request.provider in d.permitted && d.response.None? {
      if d.operationId == "" && a.env.handle.Some? {
        CreationTraces(Claim(d, a.request, a.env.handle.value), a, sendTimeout);
      } else if d.operationId != "" && Repeats(d, a) {
        CreationTraces(d, a, sendTimeout);
      }
    }
  }

  predicate Named(attempts: seq<Attempt>) {
    forall k :: 0 <= k < |attempts| ==> attempts[k].request.operationId != ""
  }

  /** The attempt that made the claim standing before the n-th, and the claim stood ever since. */
  ghost predicate Origin(start: History, attempts: seq<Attempt>, n: nat, sendTimeout: int, c: nat)
    requires n <= |attempts|
  {
    && c < n && Before(start, attempts, c, sendTimeout).operationId == ""
    && ClaimedBy(Before(start, attempts, n, sendTimeout), attempts[c])
    && (forall k :: c < k <= n ==>
          SameClaim(Before(start, attempts, k, sendTimeout), Before(start, attempts, n, sendTimeout)))
  }

  /** The attempt, no earlier than the claim, whose creation returned this card. */
  ghost predicate Creation(start: History, attempts: seq<Attempt>, n: nat, sendTimeout: int, c: nat, m: nat,
                           card: string)
    requires n <= |attempts|
  {
    c <= m < n && Before(start, attempts, m, sendTimeout).cardId == "" && attempts[m].env.create == Created(card)
  }

  /** The attempt, no earlier than the creation, that opened the response. */
  ghost predicate OpenedBy(start: History, attempts: seq<Attempt>, n: nat, sendTimeout: int, i: nat, o: Opening)
    requires n <= |attempts|
  {
    && i < n && Before(start, attempts, i, sendTimeout).response.None?
    && Repeats(Before(start, attempts, n, sendTimeout), attempts[i])
    && attempts[i].env.send == SentAs(o.messageId) && o.provider == attempts[i].request.provider
    && o.responseId == Before(start, attempts, n, sendTimeout).responseId
  }

  /** Where the claim, the card and the response standing before the n-th attempt come from. */
  ghost predicate Explained(start: History, attempts: seq<Attempt>, n: nat, sendTimeout: int, c: nat, m: nat, i: nat)
    requires n <= |attempts|
  {
    var d := Before(start, attempts, n, sendTimeout);
    && Traceable(d)
    && (d.operationId != "" ==> Origin(start, attempts, n, sendTimeout, c))
    && (d.cardId != "" ==> Creation(start, attempts, n, sendTimeout, c, m, d.cardId))
    && (d.response.Some? ==>
          Creation(start, attempts, n, sendTimeout, c, m, d.response.value.cardId) && m <= i
          && OpenedBy(start, attempts, n, sendTimeout, i, d.response.value))
  }

  /** The claim that stood before an attempt and stands after it has the same origin. */
  lemma OriginStays(start: History, attempts: seq<Attempt>, n: nat, sendTimeout: int, c: nat)
    requires n < |attempts| && Origin(start, attempts, n, sendTimeout, c)
    requires SameClaim(Before(start, attempts, n, sendTimeout), Before(start, attempts, n + 1, sendTimeout))
    requires Before(start, attempts, n + 1, sendTimeout).permitted == Before(start, attempts, n, sendTimeout).permitted
    ensures Origin(start, attempts, n + 1, sendTimeout, c)
  {
    hide Before;
  }

  lemma FirstClaim(start: History, attempts: seq<Attempt>, n: nat, sendTimeout: int)
    requires n < |attempts|
    requires var d, e := Before(start, attempts, n, sendTimeout), Before(start, attempts, n + 1, sendTimeout);
      Traceable(d) && Traceable(e) && Traces(d, attempts[n], e) && d.operationId == ""
    ensures Explained(start, attempts, n + 1, sendTimeout, n, n, n)
  {
    hide Before;
  }

  lemma LaterAttempt(start: History, attempts: seq<Attempt>, n: nat, sendTimeout: int, c: nat, m: nat, i: nat)
    requires n < |attempts| && Explained(start, attempts, n, sendTimeout, c, m, i)
    requires var d, e := Before(start, attempts, n, sendTimeout), Before(start, attempts, n + 1, sendTimeout);
      Traceable(e) && Traces(d, attempts[n], e) && d.operationId != ""
    ensures var d, e := Before(start, attempts, n, sendTimeout), Before(start, attempts, n + 1, sendTimeout);
      Explained(start, attempts, n + 1, sendTimeout, c,
                if d.cardId == "" && d.response.None? then n else m, if d.response.None? then n else i)
  {
    var d, e := Before(start, attempts, n, sendTimeout), Before(start, attempts, n + 1, sendTimeout);
    if e.operationId != "" { OriginStays(start, attempts, n, sendTimeout, c); }
    hide Before;
  }

  lemma {:induction false} EveryClaimIsExplained(start: History, attempts: seq<Attempt>, n: nat, sendTimeout: int)
    returns (c: nat, m: nat, i: nat)
    requires n <= |attempts| && Named(attempts) && start.delivery == AbortStart(start.delivery)
    ensures Explained(start, attempts, n, sendTimeout, c, m, i)
  {
    if n == 0 {
      c, m, i := 0, 0, 0;
      assert attempts[..0] == [];
    } else {
      c, m, i := EveryClaimIsExplained(start, attempts, n - 1, sendTimeout);
      var d, e := Before(start, attempts, n - 1, sendTimeout), Before(start, attempts, n, sendTimeout);
      StepOf(start, attempts, n - 1, sendTimeout);
      AttemptTraces(d, attempts[n - 1], sendTimeout);
      hide Before, Start;
      if d.operationId == "" {
        FirstClaim(start, attempts, n - 1, sendTimeout);
        c, m, i := n - 1, n - 1, n - 1;
      } else {
        LaterAttempt(start, attempts, n - 1, sendTimeout, c, m, i);
        m := if d.cardId == "" && d.response.None? then n - 1 else m;
        i := if d.response.None? then n - 1 else i;
      }
    }
  }

  // ---------------------------------------------------------------- main results

  /**
    Over any run of attempts on a received delivery, an open response consists of the handle drawn
    by the attempt that made the standing claim, the card returned by the creation under that
    claim, the message returned by the send that opened it, and the provider of the claim; the
    attempt that opened it repeats the very request that claimed.
  */
  lemma OpeningIsExplained(permitted: set<string>, route: Option<string>, replyTo: string, clock: int,
                           attempts: seq<Attempt>, n: nat, sendTimeout: int)
    requires n <= |attempts| && Named(attempts)
    requires Before(History(Received(permitted, route, replyTo), [], clock), attempts, n, sendTimeout).response.Some?
    ensures var start := History(Received(permitted, route, replyTo), [], clock);
      var opening := Before(start, attempts, n, sendTimeout).response.value;
      exists c, m, i :: 0 <= c <= m <= i < n
        && attempts[c].env.handle == Some(opening.responseId)
        && attempts[m].env.create == Created(opening.cardId)
        && attempts[i].env.send == SentAs(opening.messageId)
        && attempts[i].request == attempts[c].request && opening.provider == attempts[c].request.provider
        && (forall k :: c < k <= n ==> Before(start, attempts, k, sendTimeout).responseId == opening.responseId)
  {
    var start := History(Received(permitted, route, replyTo), [], clock);
    var c, m, i := EveryClaimIsExplained(start, attempts, n, sendTimeout);
    hide Before;
    var d := Before(start, attempts, n, sendTimeout);
    assert ClaimedBy(d, attempts[c]) && Repeats(d, attempts[i]);
    assert attempts[i].request == attempts[c].request;
  }

  /**
    While a claim stands, only its own request is not turned away: another operation id is told
    that the delivery is answered, the same id with another provider or card that it conflicts,
    and a provider the delivery was not handed to that there is no such delivery. None of these
    changes or sends anything.
  */
  lemma AClaimTurnsOthersAway(permitted: set<string>, route: Option<string>, replyTo: string, clock: int,
                              attempts: seq<Attempt>, c: nat, j: nat, sendTimeout: int)
    requires c < j < |attempts| && Named(attempts)
    requires var start := History(Received(permitted, route, replyTo), [], clock);
      && Before(start, attempts, c, sendTimeout).operationId == ""
      && forall k :: c < k <= j ==> Before(start, attempts, k, sendTimeout).operationId != ""
    ensures var start := History(Received(permitted, route, replyTo), [], clock);
      var first, later := attempts[c].request, attempts[j].request;
      var reply := ReplyTo(start, attempts, j, sendTimeout);
      && (later.provider !in permitted ==> reply == Refused(UnknownDelivery))
      && (later.provider in permitted && later.operationId != first.operationId ==> reply == Refused(AlreadyResponded))
      && ((later.provider in permitted && later.operationId == first.operationId && later != first) ==>
            reply == Refused(OperationConflict))
      && (later == first ==> reply != Refused(AlreadyResponded) && reply != Refused(OperationConflict))
      && (later != first ==>
            Before(start, attempts, j + 1, sendTimeout) == Before(start, attempts, j, sendTimeout)
            && Start(Before(start, attempts, j, sendTimeout), later, attempts[j].env, sendTimeout).sends == [])
  {
    var start := History(Received(permitted, route, replyTo), [], clock);
    StandingClaim(start, attempts, c, j, sendTimeout);
    var x, m, o := EveryClaimIsExplained(start, attempts, j, sendTimeout);
    StepOf(start, attempts, j, sendTimeout);
    AskedOfAClaim(Before(start, attempts, j, sendTimeout), attempts[c], attempts[j], sendTimeout);
    hide Before, Start;
  }

  lemma {:induction false} StandingClaim(start: History, attempts: seq<Attempt>, c: nat, j: nat, sendTimeout: int)
    requires c < j <= |attempts| && Named(attempts) && start.delivery == AbortStart(start.delivery)
    requires Before(start, attempts, c, sendTimeout).operationId == ""
    requires forall k :: c < k <= j ==> Before(start, attempts, k, sendTimeout).operationId != ""
    ensures ClaimedBy(Before(start, attempts, j, sendTimeout), attempts[c])
    ensures Before(start, attempts, j, sendTimeout).permitted == start.delivery.permitted
    decreases j
  {
    var x, m, i := EveryClaimIsExplained(start, attempts, j - 1, sendTimeout);
    var d := Before(start, attempts, j - 1, sendTimeout);
    StepOf(start, attempts, j - 1, sendTimeout);
    AttemptTraces(d, attempts[j - 1], sendTimeout);
    PermittedStays(start, attempts, j, sendTimeout);
    if c < j - 1 { StandingClaim(start, attempts, c, j - 1, sendTimeout); }
    hide Before, Start;
  }

  lemma {:induction false} PermittedStays(start: History, attempts: seq<Attempt>, n: nat, sendTimeout: int)
    requires n <= |attempts| && Named(attempts) && start.delivery == AbortStart(start.delivery)
    ensures Before(start, attempts, n, sendTimeout).permitted == start.delivery.permitted
  {
    if n == 0 {
      assert attempts[..0] == [];
    } else {
      PermittedStays(start, attempts, n - 1, sendTimeout);
      var c, m, i := EveryClaimIsExplained(start, attempts, n - 1, sendTimeout);
      StepOf(start, attempts, n - 1, sendTimeout);
      AttemptTraces(Before(start, attempts, n - 1, sendTimeout), attempts[n - 1], sendTimeout);
      hide Before, Start;
    }
  }

  lemma AskedOfAClaim(d: Delivery, first: Attempt, later: Attempt, sendTimeout: int)
    requires ClaimedBy(d, first) && Traceable(d)
    ensures var out := Start(d, later.request, later.env, sendTimeout);
      && (later.request.provider !in d.permitted ==> out.reply == Refused(UnknownDelivery))
      && (later.request.provider in d.permitted && later.request.operationId != first.request.operationId ==>
            out.reply == Refused(AlreadyResponded))
      && ((later.request.provider in d.permitted && later.request.operationId == first.request.operationId
           && later.request != first.request) ==> out.reply == Refused(OperationConflict))
      && (later.request == first.request ==>
            out.reply != Refused(AlreadyResponded) && out.reply != Refused(OperationConflict))
      && (later.request != first.request ==> out.delivery == d && out.sends == [])
  {
  }

  /**
    Once an attempt has opened the response, every later attempt of the same request is answered,
    if the owner persists, with that response's handle as a duplicate; until it persists it is
    told that it does not. Nothing changes and nothing is sent. The opening attempt itself was
    answered with the handle if its owner persisted.
  */
  lemma OpenResponseAnswersItsRequest(permitted: set<string>, route: Option<string>, replyTo: string, clock: int,
                                      attempts: seq<Attempt>, i: nat, j: nat, sendTimeout: int)
    requires i < j < |attempts| && Named(attempts)
    requires var start := History(Received(permitted, route, replyTo), [], clock);
      && Before(start, attempts, i, sendTimeout).response.None?
      && Before(start, attempts, i + 1, sendTimeout).response.Some?
    ensures var start := History(Received(permitted, route, replyTo), [], clock);
      var x := Before(start, attempts, i + 1, sendTimeout).response.value.responseId;
      var reply := ReplyTo(start, attempts, j, sendTimeout);
      && ReplyTo(start, attempts, i, sendTimeout)
         == (if attempts[i].env.persisted then Opened(x, false) else Refused(OwnershipStoreUnavailable))
      && (attempts[j].request == attempts[i].request ==>
            reply == if attempts[j].env.persisted then Opened(x, true) else Refused(OwnershipStoreUnavailable))
      && (attempts[j].request.provider !in permitted ==> reply == Refused(UnknownDelivery))
      && ((attempts[j].request.provider in permitted
           && attempts[j].request.operationId != attempts[i].request.operationId) ==>
            reply == Refused(AlreadyResponded))
      && ((attempts[j].request.provider in permitted && attempts[j].request != attempts[i].request
           && attempts[j].request.operationId == attempts[i].request.operationId) ==>
            reply == Refused(OperationConflict))
      && Before(start, attempts, j + 1, sendTimeout) == Before(start, attempts, i + 1, sendTimeout)
  {
    var start := History(Received(permitted, route, replyTo), [], clock);
    var c, m, o := EveryClaimIsExplained(start, attempts, i, sendTimeout);
    var d, e := Before(start, attempts, i, sendTimeout), Before(start, attempts, i + 1, sendTimeout);
    StepOf(start, attempts, i, sendTimeout);
    AttemptTraces(d, attempts[i], sendTimeout);
    OpensWithItsHandle(d, attempts[i], sendTimeout);
    PermittedStays(start, attempts, i + 1, sendTimeout);
    OpenStays(start, attempts, i + 1, j, sendTimeout);
    OpenStays(start, attempts, i + 1, j + 1, sendTimeout);
    AskedOfAnOpenResponse(e, attempts[j], sendTimeout);
    hide Before, Start;
  }

  lemma OpensWithItsHandle(d: Delivery, a: Attempt, sendTimeout: int)
    requires Traceable(d) && d.response.None? && Start(d, a.request, a.env, sendTimeout).delivery.response.Some?
    ensures var out := Start(d, a.request, a.env, sendTimeout);
      && Repeats(out.delivery, a)
      && out.reply == if a.env.persisted then Opened(out.delivery.response.value.responseId, false)
                      else Refused(OwnershipStoreUnavailable)
  {
  }

  lemma AskedOfAnOpenResponse(d: Delivery, a: Attempt, sendTimeout: int)
    requires Traceable(d) && d.response.Some?
    ensures var out := Start(d, a.request, a.env, sendTimeout);
      && (a.request.provider !in d.permitted ==> out.reply == Refused(UnknownDelivery))
      && (a.request.provider in d.permitted && a.request.operationId != d.operationId ==>
            out.reply == Refused(AlreadyResponded))
      && (a.request.provider in d.permitted && a.request.operationId == d.operationId && !Repeats(d, a) ==>
            out.reply == Refused(OperationConflict))
      && (a.request.provider in d.permitted && Repeats(d, a) ==>
            out.reply == if a.env.persisted then Opened(d.response.value.responseId, true)
                         else Refused(OwnershipStoreUnavailable))
  {
  }

  lemma {:induction false} OpenStays(start: History, attempts: seq<Attempt>, i: nat, j: nat, sendTimeout: int)
    requires i <= j <= |attempts| && Named(attempts) && start.delivery == AbortStart(start.delivery)
    requires Before(start, attempts, i, sendTimeout).response.Some?
    ensures Before(start, attempts, j, sendTimeout) == Before(start, attempts, i, sendTimeout)
    decreases j
  {
    if i < j {
      OpenStays(start, attempts, i, j - 1, sendTimeout);
      var c, m, o := EveryClaimIsExplained(start, attempts, j - 1, sendTimeout);
      StepOf(start, attempts, j - 1, sendTimeout);
      AttemptTraces(Before(start, attempts, j - 1, sendTimeout), attempts[j - 1], sendTimeout);
      hide Before, Start;
    }
  }

  // ---------------------------------------------------------------- failed attempts

  /**
    What a claimed delivery, not yet open and not closed to retries, makes of one more attempt in
    time. A card is created only if there is none. A refused creation, like a refused send, gives
    the claim back, unless an earlier send may have posted the message: then retries are closed
    for good. Any other failure keeps the claim, the card and the UUID for a retry, and the first
    one that left open whether the message was posted starts the clock of the retry window.
  */
  lemma FailedAttemptsAreNamed(d: Delivery, a: Attempt, sendTimeout: int)
    requires d.operationId != "" && Repeats(d, a) && d.provider in d.permitted
    requires d.response.None? && d.state != Starting && !d.sendRetryClosed && d.route.Some?
    requires d.sendAmbiguousAt.Some? ==>
      a.env.now + (if sendTimeout < 0 then 0 else sendTimeout) < d.sendAmbiguousAt.value + 3600000
    ensures var out := Start(d, a.request, a.env, sendTimeout);
      var created := d.cardId != "" || a.env.create.Created?;
      var card := if d.cardId != "" || !created then d.cardId else a.env.create.cardId;
      var retryable := d.(state := Retryable, cardId := card);
      && |out.sends| == (if created then 1 else 0)
      && (created ==>
            out.sends[0].uuid == d.messageUuid && out.sends[0].cardId == card && out.sends[0].startedAt == a.env.sendAt)
      && (!created ==>
            if RefusedForGood(a.env.create.failure)
            then out.delivery == Received(d.permitted, d.route, d.replyTo) && out.reply == Refused(FeishuRejected)
            else out.delivery == retryable && out.reply == Refused(FeishuUnavailable))
      && (created && a.env.send.SendFailed? && RefusedForGood(a.env.send.failure) && d.sendAmbiguousAt.None? ==>
            out.delivery == Received(d.permitted, d.route, d.replyTo) && out.reply == Refused(FeishuRejected))
      && (created && a.env.send.SendFailed? && RefusedForGood(a.env.send.failure) && d.sendAmbiguousAt.Some? ==>
            out.delivery == retryable.(sendRetryClosed := true, sendRetryCode := SendStateUnknown)
            && out.reply == Refused(SendStateUnknown))
      && (created && a.env.send.SendFailed? && !RefusedForGood(a.env.send.failure) ==>
            out.reply == Refused(FeishuUnavailable)
            && out.delivery == if LeavesOpen(a.env.send.failure) && d.sendAmbiguousAt.None?
                               then retryable.(sendAmbiguousAt := Some(a.env.sendAt)) else retryable)
      && (created && a.env.send.SentAs? && a.env.send.messageId != "" ==>
            out.delivery.response == Some(Opening(d.responseId, a.request.provider, card, a.env.send.messageId)))
  {
  }

  /** Past the window of the first doubtful send, or once retries were closed, the same request is told so for good. */
  lemma ClosedRetriesAreNamed(d: Delivery, a: Attempt, sendTimeout: int)
    requires d.operationId != "" && Repeats(d, a) && d.provider in d.permitted
    requires d.response.None? && d.state != Starting
    requires d.sendRetryClosed
      || (d.sendAmbiguousAt.Some?
          && a.env.now + (if sendTimeout < 0 then 0 else sendTimeout) >= d.sendAmbiguousAt.value + 3600000)
    ensures var out := Start(d, a.request, a.env, sendTimeout);
      var code := if d.sendRetryClosed then d.sendRetryCode else SendRetryExpired;
      && out.sends == [] && out.reply == Refused(code)
      && out.delivery == d.(sendRetryClosed := true, sendRetryCode := code)
  {
  }
}
