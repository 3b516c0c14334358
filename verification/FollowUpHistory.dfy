/**
  What a follow-up is answered, told from the sends that went before it: the record of a caller
  says no more and no less than how its sends under one handle ended.
*/
module FollowUpHistory {
  import opened Options
  import opened MessageWindow
  import opened FollowUps

  predicate Last(ended: seq<Ended>, caller: Caller, i: int) {
    0 <= i < |ended| && ended[i].caller == caller && forall j :: i < j < |ended| ==> ended[j].caller != caller
  }

  /** A send under this handle whose failure left open whether the message was posted. */
  predicate Doubt(ended: seq<Ended>, caller: Caller, handle: string, k: int) {
    0 <= k < |ended| && ended[k].caller == caller && ended[k].handle == handle
    && ended[k].outcome.Failed? && (ended[k].outcome.failure.Unanswered? || ended[k].outcome.failure.httpStatus >= 500)
  }

  /** A send that was refused for good while no send under its handle was in doubt: it is forgotten. */
  ghost predicate Gone(ended: seq<Ended>, i: int)
    requires 0 <= i < |ended|
  {
    var e := ended[i];
    && e.outcome.Failed? && e.outcome.failure.ApiRejected?
    && !e.outcome.failure.retryable && e.outcome.failure.httpStatus < 500
    && !exists k :: Doubt(ended, e.caller, e.handle, k)
  }

  /** The record's clock is the return of the first doubtful send under its handle. */
  ghost predicate DoubtsTold(op: Record, ended: seq<Ended>, caller: Caller) {
    && (forall k :: Doubt(ended, caller, op.followUpId, k) ==>
          op.ambiguousAt.Some? && op.ambiguousAt.value <= ended[k].endedAt)
    && (op.ambiguousAt.Some? ==>
          exists k :: Doubt(ended, caller, op.followUpId, k) && ended[k].endedAt == op.ambiguousAt.value)
  }

  ghost predicate LastTold(w: World, caller: Caller, op: Record, i: int) {
    && Last(w.ended, caller, i) && w.ended[i].startedAt >= w.born && !Gone(w.ended, i)
    && op.followUpId == w.ended[i].handle && op.fingerprint == w.ended[i].fingerprint
    && (op.complete <==> w.ended[i].outcome.Delivered?)
  }

  ghost predicate RecordTold(w: World, caller: Caller, op: Record) {
    && DoubtsTold(op, w.ended, caller)
    && (if caller in w.flights then op.fingerprint == w.flights[caller].fingerprint && !op.complete
        else !op.pending && exists i :: LastTold(w, caller, op, i))
  }

  ghost predicate Told(w: World, caller: Caller) {
    && (forall key :: HeldAt(w.ledger, caller, key) ==> RecordTold(w, caller, w.ledger.operations[key]))
    && (forall i :: caller !in w.flights && Last(w.ended, caller, i) && w.ended[i].startedAt >= w.born
                    && !Gone(w.ended, i) ==>
          exists key :: HeldAt(w.ledger, caller, key))
  }

  ghost predicate AllTold(w: World, c: Config) {
    && (forall caller: Caller :: caller.provider != "" ==> Told(w, caller))
    && (forall i :: 0 <= i < |w.ended| ==>
          w.ended[i].handle in w.used && w.ended[i].endedAt <= w.clock
          && w.ended[i].startedAt + Retain(c) <= w.ledger.expiresAt
          && (w.ended[i].startedAt < w.born ==> w.ended[i].startedAt + Retain(c) < w.born))
  }

  lemma ExpireTold(w: World, c: Config, e: Event)
    requires Inv(w, c) && c.ttl > 0 && Possible(w, c, e) && AllTold(w, c)
    ensures AllTold(Expire(w, e.at), c)
  {
    if w.ledger.expiresAt < e.at && w.flights != map[] { SendsKeepTheRoute(w, c, e.at); }
  }

  /** A step of one caller leaves the story of every other as it is. */
  lemma OthersStayTold(w: World, v: World, caller: Caller, key: Key, other: Caller)
    requires RecordsOk(w) && ChangesOnly(w, v, caller, key) && Told(w, other) && other != caller && other.provider != ""
    requires v.ended == w.ended
      || (|v.ended| == |w.ended| + 1 && v.ended[..|w.ended|] == w.ended && v.ended[|w.ended|].caller == caller)
    ensures Told(v, other)
  {
    assert forall i :: 0 <= i < |w.ended| ==> v.ended[i] == w.ended[i];
    assert forall handle, k :: Doubt(v.ended, other, handle, k) <==> Doubt(w.ended, other, handle, k);
    assert forall i :: Last(v.ended, other, i) <==> Last(w.ended, other, i);
    assert forall i :: Last(w.ended, other, i) ==> (Gone(v.ended, i) <==> Gone(w.ended, i));
    hide Last, Doubt, Gone, RecordTold;
    forall k | HeldAt(v.ledger, other, k) ensures RecordTold(v, other, v.ledger.operations[k]) {
      assert k != key && HeldAt(w.ledger, other, k);
      assert RecordTold(w, other, w.ledger.operations[k]);
      OthersRecord(w, v, other, w.ledger.operations[k]);
    }
    forall i | other !in v.flights && Last(v.ended, other, i) && v.ended[i].startedAt >= v.born && !Gone(v.ended, i)
      ensures exists k :: HeldAt(v.ledger, other, k)
    {
      var k :| HeldAt(w.ledger, other, k);
      assert HeldAt(v.ledger, other, k);
    }
  }

  lemma OthersRecord(w: World, v: World, other: Caller, op: Record)
    requires RecordTold(w, other, op) && v.born == w.born && |w.ended| <= |v.ended|
    requires other in v.flights <==> other in w.flights
    requires other in w.flights ==> v.flights[other] == w.flights[other]
    requires forall i :: 0 <= i < |w.ended| ==> v.ended[i] == w.ended[i]
    requires forall handle, k :: Doubt(v.ended, other, handle, k) <==> Doubt(w.ended, other, handle, k)
    requires forall i :: Last(v.ended, other, i) <==> Last(w.ended, other, i)
    requires forall i :: Last(w.ended, other, i) ==> (Gone(v.ended, i) <==> Gone(w.ended, i))
    ensures RecordTold(v, other, op)
  {
    if other !in w.flights {
      var i :| LastTold(w, other, op, i);
      assert LastTold(v, other, op, i);
    }
    if op.ambiguousAt.Some? {
      var k :| Doubt(w.ended, other, op.followUpId, k) && w.ended[k].endedAt == op.ambiguousAt.value;
      assert Doubt(v.ended, other, op.followUpId, k);
    }
  }

  lemma RestIsTold(w: World, v: World, c: Config, caller: Caller, key: Key)
    requires RecordsOk(w) && ChangesOnly(w, v, caller, key) && AllTold(w, c) && Told(v, caller)
    requires v.ended == w.ended
      || (|v.ended| == |w.ended| + 1 && v.ended[..|w.ended|] == w.ended && v.ended[|w.ended|].caller == caller
          && v.ended[|w.ended|].handle in v.used && v.ended[|w.ended|].endedAt <= v.clock
          && v.ended[|w.ended|].startedAt >= v.born
          && v.ended[|w.ended|].startedAt + Retain(c) <= v.ledger.expiresAt)
    ensures AllTold(v, c)
  {
    assert forall i :: 0 <= i < |w.ended| ==> v.ended[i] == w.ended[i];
    forall other: Caller | other.provider != "" ensures Told(v, other) {
      if other != caller { OthersStayTold(w, v, caller, key, other); }
    }
  }

  lemma AsksTold(w: World, c: Config, e: Event)
    requires Inv(w, c) && c.ttl > 0 && e.Asks? && Possible(w, c, e) && AllTold(w, c)
    ensures AllTold(Act(w, c, e), c)
  {
    hide Inv, RecordsOk, FollowUp, Told;
    var v, caller := Act(w, c, e), e.caller;
    var key := OperationKey(w.ledger, caller.provider, caller.operationId);
    InvAt(w, c, caller, key);
    KeyIsOwnOrFree(w, caller);
    BeginEffect(w.ledger, c, caller, e.fingerprint, e.at, e.handle);
    AsksKeepsKey(w, v, caller, key);
    AskerIsTold(w, v, c, e, key);
    RestIsTold(w, v, c, caller, key);
  }

  lemma AskerIsTold(w: World, v: World, c: Config, e: Event, key: Key)
    requires Inv(w, c) && c.ttl > 0 && e.Asks? && Possible(w, c, e) && AllTold(w, c) && v == Act(w, c, e)
    requires key == OperationKey(w.ledger, e.caller.provider, e.caller.operationId)
    ensures Told(v, e.caller)
  {
    hide Inv, RecordsOk, FollowUp;
    var caller := e.caller;
    InvAt(w, c, caller, key);
    KeyIsOwnOrFree(w, caller);
    BeginEffect(w.ledger, c, caller, e.fingerprint, e.at, e.handle);
    assert Told(w, caller);
    assert forall k :: HeldAt(v.ledger, caller, k) && v.ledger.operations != w.ledger.operations ==> k == key;
    forall k | HeldAt(v.ledger, caller, k) ensures RecordTold(v, caller, v.ledger.operations[k]) {
      if v.ledger.operations == w.ledger.operations {
        assert RecordTold(w, caller, w.ledger.operations[k]);
        SameStory(w, v, caller, w.ledger.operations[k]);
      } else if key in w.ledger.operations {
        assert RecordTold(w, caller, w.ledger.operations[key]);
        DoubtsStay(w.ledger.operations[key], v.ledger.operations[key], w.ended, caller);
      } else {
        assert forall i :: !Doubt(w.ended, caller, v.ledger.operations[key].followUpId, i);
      }
    }
    forall i | caller !in v.flights && Last(v.ended, caller, i) && v.ended[i].startedAt >= v.born && !Gone(v.ended, i)
      ensures exists k :: HeldAt(v.ledger, caller, k)
    {
      var k :| HeldAt(w.ledger, caller, k);
      assert HeldAt(v.ledger, caller, k);
    }
  }

  lemma SameStory(w: World, v: World, caller: Caller, op: Record)
    requires RecordTold(w, caller, op) && v.ended == w.ended && v.born == w.born && v.flights == w.flights
    ensures RecordTold(v, caller, op)
  {
    if caller !in w.flights {
      var i :| LastTold(w, caller, op, i);
      assert LastTold(v, caller, op, i);
    }
  }

  lemma DoubtsStay(op: Record, p: Record, ended: seq<Ended>, caller: Caller)
    requires DoubtsTold(op, ended, caller) && p.followUpId == op.followUpId && p.ambiguousAt == op.ambiguousAt
    ensures DoubtsTold(p, ended, caller)
  {
  }

  // ---------------------------------------------------------------- settling

  /** What settling makes of the caller's own record, exactly. */
  lemma SettledRecord(l: Ledger, caller: Caller, outcome: SendOutcome, now: int)
    requires OperationKey(l, caller.provider, caller.operationId) in l.operations
    ensures var key := OperationKey(l, caller.provider, caller.operationId);
      var op := l.operations[key];
      var out := if outcome.Delivered? then Commit(l, caller.provider, caller.operationId)
                 else Abort(l, caller.provider, caller.operationId, outcome.failure, now);
      var open := outcome.Failed? && (outcome.failure.Unanswered? || outcome.failure.httpStatus >= 500);
      var final := outcome.Failed? && outcome.failure.ApiRejected? && !outcome.failure.retryable
                   && outcome.failure.httpStatus < 500;
      out.operations ==
        if final && op.ambiguousAt.None? then l.operations - {key}
        else l.operations[key := op.(pending := false, complete := op.complete || outcome.Delivered?,
                                     ambiguousAt := if open && op.ambiguousAt.None? then Some(now) else op.ambiguousAt)]
  {
  }

  lemma SettlesTold(w: World, c: Config, e: Event)
    requires Inv(w, c) && e.Settles? && Possible(w, c, e) && AllTold(w, c)
    ensures AllTold(Act(w, c, e), c)
  {
    hide Inv, RecordsOk, Commit, Abort, Told;
    var v, caller := Act(w, c, e), e.caller;
    var key := OperationKey(w.ledger, caller.provider, caller.operationId);
    InvAt(w, c, caller, key);
    SettleChangesOnlyItsCaller(w, v, c, e, key);
    SettlerIsTold(w, v, c, e, key);
    hide ChangesOnly;
    RestIsTold(w, v, c, caller, key);
  }

  lemma SettlerIsTold(w: World, v: World, c: Config, e: Event, key: Key)
    requires Inv(w, c) && e.Settles? && Possible(w, c, e) && AllTold(w, c) && v == Act(w, c, e)
    requires key == OperationKey(w.ledger, e.caller.provider, e.caller.operationId)
    ensures Told(v, e.caller)
  {
    hide Inv, RecordsOk, Commit, Abort;
    var caller, n := e.caller, |w.ended|;
    InvAt(w, c, caller, key);
    KeyIsOwnOrFree(w, caller);
    SettledRecord(w.ledger, caller, e.outcome, e.at);
    var op, last := w.ledger.operations[key], v.ended[n];
    assert Told(w, caller) && RecordTold(w, caller, op);
    assert last.handle == op.followUpId && Last(v.ended, caller, n);
    DoubtsAfter(w.ended, last, op);
    assert forall k :: HeldAt(v.ledger, caller, k) ==> k == key;
    forall k | HeldAt(v.ledger, caller, k) ensures RecordTold(v, caller, v.ledger.operations[k]) {
      assert LastTold(v, caller, v.ledger.operations[key], n);
    }
    forall i | Last(v.ended, caller, i) && !Gone(v.ended, i) ensures exists k :: HeldAt(v.ledger, caller, k) {
      assert i == n;
      assert HeldAt(v.ledger, caller, key);
    }
  }

  /** One more send under the record's handle: the first doubtful one sets the clock, no later one moves it. */
  lemma DoubtsAfter(ended: seq<Ended>, last: Ended, op: Record)
    requires DoubtsTold(op, ended, last.caller) && last.handle == op.followUpId
    requires forall i :: 0 <= i < |ended| ==> ended[i].endedAt <= last.endedAt
    ensures var all := ended + [last];
      var open := last.outcome.Failed? && (last.outcome.failure.Unanswered? || last.outcome.failure.httpStatus >= 500);
      var p := op.(ambiguousAt := if open && op.ambiguousAt.None? then Some(last.endedAt) else op.ambiguousAt);
      && DoubtsTold(p, all, last.caller)
      && (p.ambiguousAt.None? <==> !exists k :: Doubt(all, last.caller, last.handle, k))
  {
    var all := ended + [last];
    assert forall k, h :: 0 <= k < |ended| ==> (Doubt(all, last.caller, h, k) <==> Doubt(ended, last.caller, h, k));
    assert all[|ended|] == last;
    if op.ambiguousAt.Some? {
      var k :| Doubt(ended, last.caller, op.followUpId, k) && ended[k].endedAt == op.ambiguousAt.value;
      assert Doubt(all, last.caller, op.followUpId, k);
    } else if last.outcome.Failed? && (last.outcome.failure.Unanswered? || last.outcome.failure.httpStatus >= 500) {
      assert Doubt(all, last.caller, op.followUpId, |ended|);
    }
  }

  lemma GrantsTold(w: World, c: Config, e: Event)
    requires Inv(w, c) && c.ttl > 0 && (e.Speaks? || e.Acts?) && Possible(w, c, e) && AllTold(w, c)
    ensures AllTold(Act(w, c, e), c)
  {
    hide RecordsOk, Inv;
    var v := Act(w, c, e);
    assert v.ledger.operations == w.ledger.operations && v.ledger.expiresAt >= w.ledger.expiresAt;
    forall caller: Caller | caller.provider != "" ensures Told(v, caller) {
      assert Told(w, caller);
      forall key | HeldAt(v.ledger, caller, key) ensures RecordTold(v, caller, v.ledger.operations[key]) {
        assert RecordTold(w, caller, w.ledger.operations[key]);
        SameStory(w, v, caller, w.ledger.operations[key]);
      }
      forall i | caller !in v.flights && Last(v.ended, caller, i) && v.ended[i].startedAt >= v.born && !Gone(v.ended, i)
        ensures exists key :: HeldAt(v.ledger, caller, key)
      {
        var key :| HeldAt(w.ledger, caller, key);
        assert HeldAt(v.ledger, caller, key);
      }
    }
  }

  lemma StepTold(w: World, c: Config, e: Event)
    requires Inv(w, c) && c.ttl > 0 && Possible(w, c, e) && AllTold(w, c)
    ensures AllTold(Step(w, c, e), c)
  {
    hide Inv, Act, Expire, Possible, AllTold;
    ExpireInv(w, c, e);
    ExpireTold(w, c, e);
    match e
    case Asks(_, _, _, _) => AsksTold(Expire(w, e.at), c, e);
    case Settles(_, _, _, _) => SettlesTold(w, c, e);
    case Speaks(_, _) => GrantsTold(Expire(w, e.at), c, e);
    case Acts(_, _) => GrantsTold(Expire(w, e.at), c, e);
  }

  lemma {:induction false} RunTold(w: World, c: Config, events: seq<Event>)
    requires Inv(w, c) && c.ttl > 0 && AllTold(w, c) && PossibleRun(w, c, events)
    ensures Inv(Run(w, c, events), c) && AllTold(Run(w, c, events), c)
    decreases |events|
  {
    hide Inv, Step, Possible, AllTold;
    if events != [] {
      StepInv(w, c, events[0]);
      StepTold(w, c, events[0]);
      RunTold(Step(w, c, events[0]), c, events[1..]);
    }
  }

  lemma RecordedTold(c: Config, clock: int, expiresAt: int)
    ensures Inv(Recorded(clock, expiresAt), c) && AllTold(Recorded(clock, expiresAt), c)
  {
  }

  // ---------------------------------------------------------------- main results

  /**
    After any run, a caller whose last send has ended is answered, for a lifetime from the
    beginning of that send, as its sends tell. Other content conflicts. Delivered content is
    answered with its handle. Content in doubt, or refused for a while, is sent again under the
    same handle, unless the return of some doubtful send under that handle lies so far back that
    the effect of this one could come an hour after it. Only a final refusal with nothing in doubt
    leaves the operation id free: then the answer is the one a new operation gets.
  */
  lemma RepeatedFollowUpIsAnswered(c: Config, clock: int, expiresAt: int, events: seq<Event>, i: nat,
                                   fingerprint: string, now: int, handle: Option<string>)
    requires c.ttl > 0 && PossibleRun(Recorded(clock, expiresAt), c, events)
    requires var w := Run(Recorded(clock, expiresAt), c, events);
      && i < |w.ended| && w.ended[i].caller.provider != "" && Last(w.ended, w.ended[i].caller, i)
      && w.ended[i].caller !in w.flights && w.clock <= now <= w.ended[i].startedAt + Retain(c)
    ensures var w := Run(Recorded(clock, expiresAt), c, events);
      var e := w.ended[i];
      var reply := FollowUp(Pruned(w.ledger, now), c, e.caller.provider, e.caller.operationId,
                            fingerprint, now, handle).reply;
      if Gone(w.ended, i) then
        reply in {Refused(UnknownConversation), Refused(Internal)} || (handle.Some? && reply == Send(handle.value))
      else if fingerprint != e.fingerprint then reply == Refused(OperationConflict)
      else if e.outcome.Delivered? then reply == Replay(e.handle)
      else if exists k :: Doubt(w.ended, e.caller, e.handle, k) && now + Timeout(c) >= w.ended[k].endedAt + 3600000
      then reply == Refused(SendRetryExpired)
      else reply == Send(e.handle)
  {
    RecordedTold(c, clock, expiresAt);
    RunTold(Recorded(clock, expiresAt), c, events);
    AnsweredByItsLastSend(Run(Recorded(clock, expiresAt), c, events), c, i, fingerprint, now, handle);
  }

  lemma AnsweredByItsLastSend(w: World, c: Config, i: nat, fingerprint: string, now: int, handle: Option<string>)
    requires Inv(w, c) && AllTold(w, c) && c.ttl > 0
    requires i < |w.ended| && w.ended[i].caller.provider != "" && Last(w.ended, w.ended[i].caller, i)
    requires w.ended[i].caller !in w.flights && w.clock <= now <= w.ended[i].startedAt + Retain(c)
    ensures var e := w.ended[i];
      var reply := FollowUp(Pruned(w.ledger, now), c, e.caller.provider, e.caller.operationId,
                            fingerprint, now, handle).reply;
      if Gone(w.ended, i) then
        reply in {Refused(UnknownConversation), Refused(Internal)} || (handle.Some? && reply == Send(handle.value))
      else if fingerprint != e.fingerprint then reply == Refused(OperationConflict)
      else if e.outcome.Delivered? then reply == Replay(e.handle)
      else if exists k :: Doubt(w.ended, e.caller, e.handle, k) && now + Timeout(c) >= w.ended[k].endedAt + 3600000
      then reply == Refused(SendRetryExpired)
      else reply == Send(e.handle)
  {
    var e := w.ended[i];
    assert Told(w, e.caller) && Pruned(w.ledger, now) == w.ledger;
    KeyIsOwnOrFree(w, e.caller);
    var key := OperationKey(w.ledger, e.caller.provider, e.caller.operationId);
    if key in w.ledger.operations {
      var op := w.ledger.operations[key];
      assert HeldAt(w.ledger, e.caller, key) && RecordTold(w, e.caller, op);
      var j :| LastTold(w, e.caller, op, j);
      assert j == i;
      RecordAnswers(w.ledger, c, e.caller, fingerprint, now, handle);
    }
    hide Inv, Told;
  }

  /** What a record, not pending, answers its owner on a live route. */
  lemma RecordAnswers(l: Ledger, c: Config, caller: Caller, fingerprint: string, now: int, handle: Option<string>)
    requires caller.provider != ""
    requires var key := OperationKey(l, caller.provider, caller.operationId);
      key in l.operations && l.operations[key].provider == caller.provider
    ensures var op := l.operations[OperationKey(l, caller.provider, caller.operationId)];
      FollowUp(l, c, caller.provider, caller.operationId, fingerprint, now, handle).reply
      == if fingerprint != op.fingerprint then Refused(OperationConflict)
         else if op.complete then Replay(op.followUpId)
         else if op.pending then Refused(OperationInFlight)
         else if op.ambiguousAt.Some? && now + Timeout(c) >= op.ambiguousAt.value + 3600000
         then Refused(SendRetryExpired)
         else Send(op.followUpId)
  {
  }

  /** While a send is under way its own content is told so and other content conflicts: neither is sent. */
  lemma FollowUpUnderWayIsAnswered(c: Config, clock: int, expiresAt: int, events: seq<Event>, caller: Caller,
                                   fingerprint: string, now: int, handle: Option<string>)
    requires c.ttl > 0 && PossibleRun(Recorded(clock, expiresAt), c, events)
    requires var w := Run(Recorded(clock, expiresAt), c, events);
      caller in w.flights && Possible(w, c, Asks(caller, fingerprint, now, handle))
    ensures var w := Run(Recorded(clock, expiresAt), c, events);
      FollowUp(Pruned(w.ledger, now), c, caller.provider, caller.operationId, fingerprint, now, handle).reply
      == Refused(if fingerprint == w.flights[caller].fingerprint then OperationInFlight else OperationConflict)
  {
    hide *;
    RecordedTold(c, clock, expiresAt);
    RunTold(Recorded(clock, expiresAt), c, events);
    AnsweredByItsFlight(Run(Recorded(clock, expiresAt), c, events), c, caller, fingerprint, now, handle);
  }

  lemma AnsweredByItsFlight(w: World, c: Config, caller: Caller, fingerprint: string, now: int, handle: Option<string>)
    requires Inv(w, c) && AllTold(w, c) && c.ttl > 0
    requires caller in w.flights && Possible(w, c, Asks(caller, fingerprint, now, handle))
    ensures FollowUp(Pruned(w.ledger, now), c, caller.provider, caller.operationId, fingerprint, now, handle).reply
         == Refused(if fingerprint == w.flights[caller].fingerprint then OperationInFlight else OperationConflict)
  {
    hide Inv, FollowUp;
    var key := OperationKey(w.ledger, caller.provider, caller.operationId);
    InvAt(w, c, caller, key);
    SendsKeepTheRoute(w, c, now);
    assert Told(w, caller) && RecordTold(w, caller, w.ledger.operations[key]);
    RecordAnswers(w.ledger, c, caller, fingerprint, now, handle);
  }
}
