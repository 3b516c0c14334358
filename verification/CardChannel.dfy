/** Stock option type shared by every module of the project. */
module Options {
  datatype Option<+T> = None | Some(value: T)
}

/** Classification of a failed Feishu card call, as the daemon decides it. */
module CardFailures {
  /** Either no Feishu answer was decoded, or Feishu answered with a status and a code. */
  datatype Failure = Transport | Api(httpStatus: int, code: int)

  predicate IsCardApiRejection(f: Failure) { f.Api? }

  predicate IsRetryable(f: Failure) {
    f.Transport? || f.httpStatus == 429 || f.httpStatus >= 500
    || f.code == 200810 || f.code == 230020 || f.code == 300120
  }

  predicate IsAmbiguous(f: Failure) {
    f.Transport? || f.httpStatus >= 500 || f.code == 300120
  }

  /** A rejection that proves this very call was not applied and never will be. */
  predicate IsDefinitive(f: Failure) { IsCardApiRejection(f) && !IsRetryable(f) }

  /** What Feishu's answers mean: no answer, a server error and code 300120 leave open whether a call was applied. */
  predicate LeavesOpen(f: Failure) { f.Transport? || f.httpStatus >= 500 || f.code == 300120 }

  /** An error answer that is no overload, no server error and none of three codes refuses the call for good. */
  predicate RefusedForGood(f: Failure) {
    f.Api? && f.httpStatus != 429 && f.httpStatus < 500 && f.code != 200810 && f.code != 230020 && f.code != 300120
  }

  /**
    The daemon's classes are what Feishu's answers mean. Only an answer may be definitive, and
    nothing is both definitive and ambiguous.
  */
  lemma FailuresPartition(f: Failure)
    ensures IsAmbiguous(f) <==> LeavesOpen(f)
    ensures IsDefinitive(f) <==> RefusedForGood(f)
    ensures !(IsDefinitive(f) && IsAmbiguous(f))
    ensures IsAmbiguous(f) ==> IsRetryable(f)
    ensures IsDefinitive(f) <==> !IsRetryable(f)
  {
  }
}

/**
  One card seen from both ends. The daemon's end is the log of calls it issued and the
  outcomes it saw; Feishu's end is the list of calls it applied. The two are connected by a
  network that may lose an answer, deliver a call long after the daemon gave up waiting for
  it, and deliver it more than once.
*/
module CardChannel {
  import opened Options
  import opened CardFailures

  /** The text that tells apart the calls of one operation when their UUIDs are derived. */
  datatype Role = ContentRole | TimelineRole | PanelRole | FinishRole | ReplaceRole | ReplaceSettingsRole

  /** A derived idempotency UUID, kept as the tuple that is hashed (the response is fixed). */
  datatype Uuid = Uuid(role: Role, operationId: string)

  datatype Payload =
    | Answer(text: string)
    | Body(text: string)
    | Header(title: string)
    | Closing(summary: string)
    | Replacement(markdown: string, body: Option<string>, header: Option<string>)

  datatype Call = Call(payload: Payload, uuid: Uuid, sequence: int)

  /** NotIssued: the wait for the rate limit was cancelled before anything was sent. */
  datatype Outcome = NotIssued | Accepted | Failed(failure: Failure)

  datatype Attempt = Attempt(call: Call, outcome: Outcome)

  predicate InDoubt(o: Outcome) { o.Failed? && IsAmbiguous(o.failure) }

  // ---------------------------------------------------------------- Feishu's end

  datatype Card = Card(answer: string, body: string, header: string, streaming: bool, summary: string)

  function Paint(card: Card, payload: Payload): Card {
    match payload
    case Answer(text) => card.(answer := text)
    case Body(text) => card.(body := text)
    case Header(title) => card.(header := title)
    case Closing(summary) =>
      card.(streaming := false, summary := if summary == "" then card.summary else summary)
    case Replacement(markdown, body, header) =>
      card.(answer := markdown,
            body := if body.Some? then body.value else card.body,
            header := if header.Some? then header.value else card.header)
  }

  /** The card after the calls, in order. */
  function Show(initial: Card, calls: seq<Call>): Card {
    if calls == [] then initial
    else Paint(Show(initial, calls[..|calls| - 1]), calls[|calls| - 1].payload)
  }

  predicate Carries(calls: seq<Call>, uuid: Uuid) {
    exists i :: 0 <= i < |calls| && calls[i].uuid == uuid
  }

  function LastSequence(calls: seq<Call>): int {
    if calls == [] then 0 else calls[|calls| - 1].sequence
  }

  /** Feishu applies a call iff its UUID is new and its sequence exceeds the last one applied. */
  function Receive(applied: seq<Call>, call: Call): seq<Call> {
    if Carries(applied, call.uuid) || call.sequence <= LastSequence(applied) then applied
    else applied + [call]
  }

  // ---------------------------------------------------------------- the daemon's end

  /**
    What a log of attempts amounts to: the acknowledged calls, the one call whose fate is
    unknown, and whether the channel was given up after a rejection that cannot clear that doubt.
  */
  datatype Channel = Channel(acked: seq<Call>, doubt: Option<Call>, closed: bool)

  const FRESH: Channel := Channel([], None, false)

  function After(ch: Channel, a: Attempt): Channel {
    match a.outcome
    case NotIssued => ch
    case Accepted => Channel(ch.acked + [a.call], None, ch.closed)
    case Failed(f) =>
      if IsDefinitive(f) then ch.(closed := ch.closed || ch.doubt.Some?)
      else if IsAmbiguous(f) then ch.(doubt := Some(a.call))
      else ch
  }

  function Replay(log: seq<Attempt>): Channel {
    if log == [] then FRESH else After(Replay(log[..|log| - 1]), log[|log| - 1])
  }

  /** A call in doubt may only be repeated verbatim; otherwise the next number is due. */
  predicate Allowed(ch: Channel, call: Call) {
    !ch.closed && (if ch.doubt.Some? then call == ch.doubt.value else call.sequence == |ch.acked| + 1)
  }

  predicate Disciplined(log: seq<Attempt>) {
    log == [] || (Disciplined(log[..|log| - 1]) && Allowed(Replay(log[..|log| - 1]), log[|log| - 1].call))
  }

  /** The k-th acknowledged call carries sequence k, and the call in doubt the next one. */
  predicate Numbered(ch: Channel) {
    && (forall k :: 0 <= k < |ch.acked| ==> ch.acked[k].sequence == k + 1)
    && (ch.doubt.Some? ==> ch.doubt.value.sequence == |ch.acked| + 1)
  }

  predicate DistinctUuids(calls: seq<Call>) {
    forall i, j :: 0 <= i < j < |calls| ==> calls[i].uuid != calls[j].uuid
  }

  lemma {:induction false} DisciplinedLogIsNumbered(log: seq<Attempt>)
    requires Disciplined(log)
    ensures Numbered(Replay(log))
  {
    if log != [] {
      DisciplinedLogIsNumbered(log[..|log| - 1]);
    }
  }

  /** Every call that may have reached Feishu is acknowledged or is the one call in doubt. */
  lemma {:induction false} IssuedIsAckedOrInDoubt(log: seq<Attempt>, i: nat)
    requires Disciplined(log) && i < |log|
    ensures var ch := Replay(log); var a := log[i];
      && a.call.sequence <= |ch.acked| + 1
      && (a.outcome.Accepted? ==> a.call in ch.acked && a.call.sequence <= |ch.acked|)
      && (InDoubt(a.outcome) ==> (a.call in ch.acked && a.call.sequence <= |ch.acked|) || ch.doubt == Some(a.call))
  {
    var prefix := log[..|log| - 1];
    var before, last := Replay(prefix), log[|log| - 1];
    DisciplinedLogIsNumbered(prefix);
    if i < |prefix| {
      IssuedIsAckedOrInDoubt(prefix, i);
      assert prefix[i] == log[i];
      assert forall c :: c in before.acked ==> c in After(before, last).acked;
      if InDoubt(log[i].outcome) && before.doubt == Some(log[i].call) && last.outcome.Accepted? {
        assert After(before, last).acked[|before.acked|] == log[i].call;
      }
    } else if last.outcome.Accepted? {
      assert After(before, last).acked[|before.acked|] == last.call;
    }
  }

  /**
    Issue order over the whole life of a card: sequence numbers never go back, an acknowledged
    number is never issued again, and a number issued again after an ambiguous answer repeats
    the identical call.
  */
  lemma IssueOrder(log: seq<Attempt>, i: nat, j: nat)
    requires Disciplined(log) && i < j < |log|
    ensures log[i].call.sequence <= log[j].call.sequence
    ensures log[i].outcome.Accepted? ==> log[i].call.sequence < log[j].call.sequence
    ensures InDoubt(log[i].outcome) && log[i].call.sequence == log[j].call.sequence ==> log[i].call == log[j].call
  {
    DisciplinedPrefix(log, j + 1);
    var upTo := log[..j + 1];
    assert upTo[..|upTo| - 1] == log[..j] && upTo[j] == log[j];
    IssuedIsAckedOrInDoubt(log[..j], i);
    DisciplinedLogIsNumbered(log[..j]);
    assert log[..j][i] == log[i];
  }

  lemma {:induction false} DisciplinedPrefix(log: seq<Attempt>, n: nat)
    requires Disciplined(log) && n <= |log|
    ensures Disciplined(log[..n])
  {
    if n == |log| {
      assert log[..n] == log;
    } else {
      DisciplinedPrefix(log[..|log| - 1], n);
      assert log[..|log| - 1][..n] == log[..n];
    }
  }

  // ---------------------------------------------------------------- both ends together

  /** What happens on the wire: the daemon issues a call and sees an outcome, or a copy arrives late. */
  datatype Event = Sent(attempt: Attempt) | Arrives(call: Call)

  function Sends(events: seq<Event>): seq<Attempt> {
    if events == [] then []
    else
      var e := events[|events| - 1];
      Sends(events[..|events| - 1]) + if e.Sent? then [e.attempt] else []
  }

  function Applied(events: seq<Event>): seq<Call> {
    if events == [] then []
    else
      var before, e := Applied(events[..|events| - 1]), events[|events| - 1];
      if e.Arrives? then Receive(before, e.call)
      else if e.attempt.outcome.Accepted? then Receive(before, e.attempt.call)
      else before
  }

  /** A late copy can only be a copy of a call that was accepted or whose answer left its fate open. */
  predicate Plausible(events: seq<Event>) {
    events == []
    || (Plausible(events[..|events| - 1])
        && (events[|events| - 1].Arrives? ==> MayArrive(Sends(events[..|events| - 1]), events[|events| - 1].call)))
  }

  predicate MayHaveLanded(o: Outcome) { o.Failed? && LeavesOpen(o.failure) }

  predicate MayArrive(log: seq<Attempt>, call: Call) {
    exists i :: 0 <= i < |log| && log[i].call == call && (log[i].outcome.Accepted? || MayHaveLanded(log[i].outcome))
  }

  /**
    Whatever the network does, if no UUID was acknowledged twice, Feishu has applied exactly the
    acknowledged calls, in order, plus at most the single call in doubt.
  */
  lemma {:induction false} FeishuFollowsTheLog(events: seq<Event>)
    requires Plausible(events) && Disciplined(Sends(events)) && DistinctUuids(Replay(Sends(events)).acked)
    ensures var ch := Replay(Sends(events));
      Applied(events) == ch.acked || (ch.doubt.Some? && Applied(events) == ch.acked + [ch.doubt.value])
  {
    if events != [] {
      var prefix, e := events[..|events| - 1], events[|events| - 1];
      var log := Sends(prefix);
      var ch := Replay(log);
      if e.Sent? {
        assert Sends(events) == log + [e.attempt];
        assert (log + [e.attempt])[..|log|] == log;
        assert DistinctUuids(ch.acked) by {
          var acked := After(ch, e.attempt).acked;
          assert forall i :: 0 <= i < |ch.acked| ==> acked[i] == ch.acked[i];
        }
      } else {
        assert Sends(events) == log;
      }
      FeishuFollowsTheLog(prefix);
      DisciplinedLogIsNumbered(log);
      if e.Arrives? {
        var i :| 0 <= i < |log| && log[i].call == e.call && (log[i].outcome.Accepted? || MayHaveLanded(log[i].outcome));
        IssuedIsAckedOrInDoubt(log, i);
        ArrivalChangesNothingElse(ch, Applied(prefix), e.call);
      } else if e.attempt.outcome.Accepted? {
        AcceptanceLands(ch, Applied(prefix), e.attempt.call);
      }
    }
  }

  lemma ArrivalChangesNothingElse(ch: Channel, applied: seq<Call>, call: Call)
    requires Numbered(ch) && (call in ch.acked || ch.doubt == Some(call))
    requires applied == ch.acked || (ch.doubt.Some? && applied == ch.acked + [ch.doubt.value])
    ensures Receive(applied, call) == applied
      || (ch.doubt == Some(call) && applied == ch.acked && Receive(applied, call) == ch.acked + [call])
  {
    if call in ch.acked {
      var k :| 0 <= k < |ch.acked| && ch.acked[k] == call;
      assert applied[k] == call;
    } else if applied != ch.acked {
      assert applied[|ch.acked|] == call;
    }
  }

  lemma AcceptanceLands(ch: Channel, applied: seq<Call>, call: Call)
    requires Numbered(ch) && Allowed(ch, call) && DistinctUuids(ch.acked + [call])
    requires applied == ch.acked || (ch.doubt.Some? && applied == ch.acked + [ch.doubt.value])
    ensures Receive(applied, call) == ch.acked + [call]
  {
    if applied == ch.acked {
      forall i | 0 <= i < |applied| ensures applied[i].uuid != call.uuid {
        assert (ch.acked + [call])[i].uuid != (ch.acked + [call])[|ch.acked|].uuid;
      }
    } else {
      assert applied[|ch.acked|] == call;
    }
  }

  lemma {:induction false} AppliedUuidsAreDistinct(events: seq<Event>)
    ensures DistinctUuids(Applied(events))
  {
    if events != [] {
      AppliedUuidsAreDistinct(events[..|events| - 1]);
    }
  }

  /**
    The exact condition under which an acknowledgement means the call took effect, over whole
    logs and whatever the network does: every acknowledged call was applied iff no UUID was
    acknowledged twice. A UUID derived a second time is answered from Feishu's memory.
  */
  lemma AcknowledgedCallsLandIff(events: seq<Event>)
    requires Plausible(events) && Disciplined(Sends(events))
    ensures var acked := Replay(Sends(events)).acked;
      (forall call :: call in acked ==> call in Applied(events)) <==> DistinctUuids(acked)
  {
    var acked, applied := Replay(Sends(events)).acked, Applied(events);
    if DistinctUuids(acked) {
      FeishuFollowsTheLog(events);
    } else {
      var i, j :| 0 <= i < j < |acked| && acked[i].uuid == acked[j].uuid;
      DisciplinedLogIsNumbered(Sends(events));
      AppliedUuidsAreDistinct(events);
      assert !(acked[i] in applied && acked[j] in applied);
    }
  }
}
