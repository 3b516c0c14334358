/**
  Who may send into a conversation, told from the events it has seen: a provider that was spoken
  to there, or acted there after it was, less than a lifetime ago.
*/
module FollowUpAccess {
  import opened Options
  import opened MessageWindow
  import opened FollowUps
  import FollowUpHistory

  predicate SpokenTo(e: Event, provider: string) { e.Speaks? && provider in e.receivers }

  /** The provider was spoken to before the k-th event, on a route not forgotten up to it. */
  ghost predicate InForce(start: World, c: Config, events: seq<Event>, k: int, provider: string)
    requires 0 <= k < |events|
  {
    exists j :: 0 <= j < k && SpokenTo(events[j], provider) && Run(start, c, events[..k + 1]).born <= events[j].at
  }

  /** The k-th event lets the provider send: it spoke to the provider, or the provider acted while it could. */
  ghost predicate Admits(start: World, c: Config, events: seq<Event>, k: int, provider: string) {
    0 <= k < |events|
    && (SpokenTo(events[k], provider)
        || (events[k].Acts? && events[k].provider == provider && InForce(start, c, events, k, provider)))
  }

  /** A grant is a lifetime from some admitting event, on a route that has heard of the provider. */
  ghost predicate GrantKnown(w: World, start: World, c: Config, events: seq<Event>, p: string)
    requires p in w.ledger.grants
  {
    && w.ledger.grants[p] <= w.ledger.expiresAt
    && (exists k :: 0 <= k < |events| && Admits(start, c, events, k, p) && w.ledger.grants[p] == events[k].at + c.ttl)
    && (exists j :: 0 <= j < |events| && SpokenTo(events[j], p) && w.born <= events[j].at)
  }

  /** What an event admits lasts a lifetime at least, unless that is over and the route was forgotten since. */
  ghost predicate AdmissionKnown(w: World, c: Config, e: Event, p: string) {
    || e.at + c.ttl < w.born
    || (w.born <= e.at && p in w.ledger.grants && e.at + c.ttl <= w.ledger.grants[p])
  }

  ghost predicate Known(w: World, start: World, c: Config, events: seq<Event>) {
    && w.born <= w.clock && (forall k :: 0 <= k < |events| ==> events[k].at <= w.clock)
    && (forall p :: p in w.ledger.grants ==> GrantKnown(w, start, c, events, p))
    && (forall k, p :: 0 <= k < |events| && Admits(start, c, events, k, p) ==> AdmissionKnown(w, c, events[k], p))
  }

  lemma {:induction false} RunOneMore(w: World, c: Config, events: seq<Event>, e: Event)
    ensures Run(w, c, events + [e]) == Step(Run(w, c, events), c, e)
    ensures PossibleRun(w, c, events + [e]) ==> PossibleRun(w, c, events) && Possible(Run(w, c, events), c, e)
    decreases |events|
  {
    hide Step, Possible;
    if events == [] {
      assert [e][1..] == [] && events + [e] == [e];
    } else {
      assert (events + [e])[1..] == events[1..] + [e];
      RunOneMore(Step(w, c, events[0]), c, events[1..], e);
    }
  }

  /** Whether an event admits depends on it and the events before it alone. */
  lemma AdmittedEarlier(start: World, c: Config, events: seq<Event>, e: Event)
    ensures forall k, p :: 0 <= k < |events| ==>
      (Admits(start, c, events + [e], k, p) <==> Admits(start, c, events, k, p))
  {
    forall k, p | 0 <= k < |events|
      ensures Admits(start, c, events + [e], k, p) <==> Admits(start, c, events, k, p)
    {
      assert (events + [e])[..k + 1] == events[..k + 1];
    }
  }

  lemma ExpireKnows(w: World, start: World, c: Config, events: seq<Event>, at: int)
    requires c.ttl > 0 && Known(w, start, c, events) && w.clock <= at
    ensures Known(Expire(w, at), start, c, events)
  {
    hide Admits;
  }

  lemma LedgersKeepTheirGrants(l: Ledger, c: Config, caller: Caller, fingerprint: string, now: int,
                               handle: Option<string>, f: SendFailure)
    requires c.ttl > 0
    ensures var out := FollowUp(l, c, caller.provider, caller.operationId, fingerprint, now, handle).ledger;
      out.grants == l.grants && out.expiresAt >= l.expiresAt
    ensures var out := Commit(l, caller.provider, caller.operationId);
      out.grants == l.grants && out.expiresAt == l.expiresAt
    ensures var out := Abort(l, caller.provider, caller.operationId, f, now);
      out.grants == l.grants && out.expiresAt == l.expiresAt
  {
  }

  /** An event that speaks to nobody and is no action changes no grant. */
  lemma OtherEventsKnow(w: World, start: World, c: Config, events: seq<Event>, e: Event)
    requires c.ttl > 0 && Known(w, start, c, events) && w.clock <= e.at && (e.Asks? || e.Settles?)
    requires e.Settles? ==> e.caller in w.flights
    ensures Known(Act(w, c, e), start, c, events + [e])
  {
    hide FollowUp, Commit, Abort;
    var f := if e.Settles? && e.outcome.Failed? then e.outcome.failure else Unanswered;
    LedgersKeepTheirGrants(w.ledger, c, e.caller, if e.Asks? then e.fingerprint else "", e.at,
                           if e.Asks? then e.handle else None, f);
    var v := Act(w, c, e);
    assert v.ledger.grants == w.ledger.grants && v.born == w.born && v.clock == e.at;
    GrantsStayKnown(w, v, start, c, events, e);
  }

  lemma GrantsStayKnown(w: World, v: World, start: World, c: Config, events: seq<Event>, e: Event)
    requires Known(w, start, c, events) && w.clock <= e.at == v.clock && v.born == w.born
    requires v.ledger.grants == w.ledger.grants && v.ledger.expiresAt >= w.ledger.expiresAt
    requires forall p :: !Admits(start, c, events + [e], |events|, p)
    ensures Known(v, start, c, events + [e])
  {
    AdmittedEarlier(start, c, events, e);
    hide Admits;
    var all := events + [e];
    forall p | p in v.ledger.grants ensures GrantKnown(v, start, c, all, p) {
      assert GrantKnown(w, start, c, events, p);
      var k :| 0 <= k < |events| && Admits(start, c, events, k, p) && w.ledger.grants[p] == events[k].at + c.ttl;
      assert all[k] == events[k] && Admits(start, c, all, k, p);
      var j :| 0 <= j < |events| && SpokenTo(events[j], p) && w.born <= events[j].at;
      assert all[j] == events[j];
    }
    forall k, p | 0 <= k < |all| && Admits(start, c, all, k, p) ensures AdmissionKnown(v, c, all[k], p) {
      assert k < |events| && all[k] == events[k] && Admits(start, c, events, k, p);
    }
  }

  ghost predicate Grants(w: World, v: World, start: World, c: Config, events: seq<Event>, e: Event, some: set<string>) {
    && Known(w, start, c, events) && w.clock <= e.at == v.clock && v.born == w.born
    && (forall p :: p in some <==> Admits(start, c, events + [e], |events|, p))
    && v.ledger.grants == w.ledger.grants + (map p | p in some :: e.at + c.ttl)
    && v.ledger.expiresAt >= w.ledger.expiresAt && (some != {} ==> v.ledger.expiresAt >= e.at + c.ttl)
    && (forall p :: p in some ==> p in w.ledger.grants || SpokenTo(e, p))
  }

  lemma GrantIsExplained(w: World, v: World, start: World, c: Config, events: seq<Event>, e: Event, some: set<string>,
                         p: string)
    requires Grants(w, v, start, c, events, e, some) && p in v.ledger.grants
    ensures GrantKnown(v, start, c, events + [e], p)
  {
    AdmittedEarlier(start, c, events, e);
    hide Admits;
    var all := events + [e];
    assert all[|events|] == e;
    if p in w.ledger.grants {
      assert GrantKnown(w, start, c, events, p);
      var k :| 0 <= k < |events| && Admits(start, c, events, k, p) && w.ledger.grants[p] == events[k].at + c.ttl;
      assert all[k] == events[k] && Admits(start, c, all, k, p);
      var j :| 0 <= j < |events| && SpokenTo(events[j], p) && w.born <= events[j].at;
      assert all[j] == events[j];
    } else {
      assert SpokenTo(all[|events|], p);
    }
    assert p in some ==> Admits(start, c, all, |events|, p);
  }

  lemma AdmissionIsGranted(w: World, v: World, start: World, c: Config, events: seq<Event>, e: Event,
                           some: set<string>, k: int, p: string)
    requires c.ttl > 0 && Grants(w, v, start, c, events, e, some)
    requires 0 <= k <= |events| && Admits(start, c, events + [e], k, p)
    ensures AdmissionKnown(v, c, (events + [e])[k], p)
  {
    AdmittedEarlier(start, c, events, e);
    hide Admits;
    var all := events + [e];
    assert k < |events| ==> all[k] == events[k];
  }

  /** An event that admits some providers gives each of them a lifetime from now. */
  lemma GrantingKnows(w: World, v: World, start: World, c: Config, events: seq<Event>, e: Event, some: set<string>)
    requires c.ttl > 0 && Grants(w, v, start, c, events, e, some)
    ensures Known(v, start, c, events + [e])
  {
    hide GrantKnown, AdmissionKnown, Admits;
    var all := events + [e];
    forall p | p in v.ledger.grants ensures GrantKnown(v, start, c, all, p) {
      GrantIsExplained(w, v, start, c, events, e, some, p);
    }
    forall k, p | 0 <= k < |all| && Admits(start, c, all, k, p) ensures AdmissionKnown(v, c, all[k], p) {
      AdmissionIsGranted(w, v, start, c, events, e, some, k, p);
    }
    assert forall k :: 0 <= k < |events| ==> all[k] == events[k];
  }

  lemma SpeaksKnows(w: World, start: World, c: Config, events: seq<Event>, e: Event)
    requires c.ttl > 0 && Known(w, start, c, events) && w.clock <= e.at && e.Speaks?
    ensures Known(Act(w, c, e), start, c, events + [e])
  {
    var all := events + [e];
    assert all[|events|] == e;
    assert forall p :: Admits(start, c, all, |events|, p) <==> p in e.receivers;
    GrantingKnows(w, Act(w, c, e), start, c, events, e, e.receivers);
  }

  /** A provider acts in force exactly if the ledger still has a grant of it. */
  lemma InForceIffGranted(w: World, start: World, c: Config, events: seq<Event>, e: Event)
    requires c.ttl > 0 && Known(w, start, c, events) && e.Acts? && w.born == Run(start, c, events + [e]).born
    ensures InForce(start, c, events + [e], |events|, e.provider) <==> e.provider in w.ledger.grants
  {
    var all, p := events + [e], e.provider;
    assert all[..|events| + 1] == all;
    if p in w.ledger.grants {
      assert GrantKnown(w, start, c, events, p);
      var j :| 0 <= j < |events| && SpokenTo(events[j], p) && w.born <= events[j].at;
      assert SpokenTo(all[j], p) && w.born <= all[j].at;
    }
    if InForce(start, c, all, |events|, p) {
      var j :| 0 <= j < |events| && SpokenTo(all[j], p) && w.born <= all[j].at;
      assert all[j] == events[j];
      SpeakingAdmits(start, c, events, j, p);
      assert AdmissionKnown(w, c, events[j], p);
    }
  }

  lemma SpeakingAdmits(start: World, c: Config, events: seq<Event>, k: int, p: string)
    requires 0 <= k < |events| && SpokenTo(events[k], p)
    ensures Admits(start, c, events, k, p)
  {
  }

  /** The providers an action admits: its own, if it still has a grant. */
  function Acting(w: World, e: Event): set<string>
    requires e.Acts?
  {
    if e.provider in w.ledger.grants then {e.provider} else {}
  }

  lemma ActingIsAGrant(w: World, start: World, c: Config, events: seq<Event>, e: Event)
    requires c.ttl > 0 && Known(w, start, c, events) && w.clock <= e.at && e.Acts?
    requires w.born == Run(start, c, events + [e]).born
    ensures Grants(w, Act(w, c, e), start, c, events, e, Acting(w, e))
  {
    hide Known, InForce, Admits, Act, Run;
    InForceIffGranted(w, start, c, events, e);
    ActingAdmits(start, c, events, e);
    ActingGrants(w, c, e);
  }

  lemma ActsKnows(w: World, start: World, c: Config, events: seq<Event>, e: Event)
    requires c.ttl > 0 && Known(w, start, c, events) && w.clock <= e.at && e.Acts?
    requires w.born == Run(start, c, events + [e]).born
    ensures Known(Act(w, c, e), start, c, events + [e])
  {
    hide *;
    ActingIsAGrant(w, start, c, events, e);
    GrantingKnows(w, Act(w, c, e), start, c, events, e, Acting(w, e));
  }

  lemma ActingGrants(w: World, c: Config, e: Event)
    requires e.Acts?
    ensures var v := Act(w, c, e);
      var some := Acting(w, e);
      && v.clock == e.at && v.born == w.born
      && v.ledger.grants == w.ledger.grants + (map q | q in some :: e.at + c.ttl)
      && v.ledger.expiresAt >= w.ledger.expiresAt && (some != {} ==> v.ledger.expiresAt >= e.at + c.ttl)
  {
  }

  lemma ActingAdmits(start: World, c: Config, events: seq<Event>, e: Event)
    requires e.Acts?
    ensures forall q :: Admits(start, c, events + [e], |events|, q) <==>
      q == e.provider && InForce(start, c, events + [e], |events|, q)
  {
    assert (events + [e])[|events|] == e;
  }

  lemma StepKnows(w: World, start: World, c: Config, events: seq<Event>, e: Event)
    requires c.ttl > 0 && Known(w, start, c, events) && Possible(w, c, e) && w == Run(start, c, events)
    ensures Known(Step(w, c, e), start, c, events + [e])
  {
    RunOneMore(start, c, events, e);
    hide Known, Act;
    ExpireKnows(w, start, c, events, e.at);
    match e
    case Asks(_, _, _, _) => OtherEventsKnow(Expire(w, e.at), start, c, events, e);
    case Settles(_, _, _, _) => OtherEventsKnow(w, start, c, events, e);
    case Speaks(_, _) => SpeaksKnows(Expire(w, e.at), start, c, events, e);
    case Acts(_, _) =>
      ActsKeepBorn(Expire(w, e.at), c, e);
      ActsKnows(Expire(w, e.at), start, c, events, e);
  }

  lemma ActsKeepBorn(w: World, c: Config, e: Event)
    ensures Act(w, c, e).born == w.born
  {
  }

  lemma {:induction false} RunKnows(start: World, c: Config, events: seq<Event>)
    requires c.ttl > 0 && start.ledger.grants == map[] && start.born <= start.clock && PossibleRun(start, c, events)
    ensures Known(Run(start, c, events), start, c, events)
  {
    if events != [] {
      var front, e := events[..|events| - 1], events[|events| - 1];
      assert events == front + [e];
      RunOneMore(start, c, front, e);
      RunKnows(start, c, front);
      StepKnows(Run(start, c, front), start, c, front, e);
    }
  }

  // ---------------------------------------------------------------- main results

  /** Some event less than a lifetime ago lets this provider send. */
  ghost predicate Admitted(start: World, c: Config, events: seq<Event>, provider: string, now: int) {
    exists k :: 0 <= k < |events| && Admits(start, c, events, k, provider) && now < events[k].at + c.ttl
  }

  /** After any run, what the ledger grants is what the events of the conversation admit. */
  lemma GrantedIffAdmitted(c: Config, clock: int, expiresAt: int, events: seq<Event>, provider: string, now: int)
    requires c.ttl > 0 && PossibleRun(Recorded(clock, expiresAt), c, events)
    requires Run(Recorded(clock, expiresAt), c, events).clock <= now
    ensures var start := Recorded(clock, expiresAt);
      Granted(Pruned(Run(start, c, events).ledger, now), provider, now) <==> Admitted(start, c, events, provider, now)
  {
    var start := Recorded(clock, expiresAt);
    RunKnows(start, c, events);
    hide Admits;
  }

  /**
    Who may begin a follow-up, after any run: a caller without a record is let through, if a
    handle can be drawn, exactly when its provider was spoken to in this conversation, or acted
    there in force, less than a lifetime ago. Everybody else without a record is told that there
    is no such conversation, whoever else was spoken to.
  */
  lemma WhoMaySend(c: Config, clock: int, expiresAt: int, events: seq<Event>, caller: Caller, fingerprint: string,
                   now: int, handle: Option<string>)
    requires c.ttl > 0 && PossibleRun(Recorded(clock, expiresAt), c, events) && caller.provider != ""
    requires Run(Recorded(clock, expiresAt), c, events).clock <= now
    requires forall key :: !HeldAt(Pruned(Run(Recorded(clock, expiresAt), c, events).ledger, now), caller, key)
    ensures var start := Recorded(clock, expiresAt);
      FollowUp(Pruned(Run(start, c, events).ledger, now), c, caller.provider, caller.operationId,
               fingerprint, now, handle).reply
      == if !Admitted(start, c, events, caller.provider, now) then Refused(UnknownConversation)
         else if handle.None? then Refused(Internal)
         else Send(handle.value)
  {
    var start := Recorded(clock, expiresAt);
    hide Admitted, Known;
    GrantedIffAdmitted(c, clock, expiresAt, events, caller.provider, now);
    RecordedInv(c, clock, expiresAt);
    RunInv(start, c, events);
    NewCallerIsAnswered(Run(start, c, events), c, caller, fingerprint, now, handle);
  }

  lemma NewCallerIsAnswered(w: World, c: Config, caller: Caller, fingerprint: string, now: int, handle: Option<string>)
    requires Inv(w, c) && caller.provider != "" && forall key :: !HeldAt(Pruned(w.ledger, now), caller, key)
    ensures FollowUp(Pruned(w.ledger, now), c, caller.provider, caller.operationId, fingerprint, now, handle).reply
      == if !Granted(Pruned(w.ledger, now), caller.provider, now) then Refused(UnknownConversation)
         else if handle.None? then Refused(Internal)
         else Send(handle.value)
  {
    KeyIsOwnOrFree(w, caller);
    var l := Pruned(w.ledger, now);
    var key := OperationKey(l, caller.provider, caller.operationId);
    assert key in l.operations ==> HeldAt(l, caller, key);
    hide Inv;
  }

  /**
    A caller has a record only if a send of it is under way or its last one, begun on the route as
    it is now, was not forgotten: the two sides of this, with the answer each gets, are complete.
  */
  lemma RecordsComeFromSends(c: Config, clock: int, expiresAt: int, events: seq<Event>, caller: Caller)
    requires c.ttl > 0 && PossibleRun(Recorded(clock, expiresAt), c, events) && caller.provider != ""
    ensures var w := Run(Recorded(clock, expiresAt), c, events);
      (exists key :: HeldAt(w.ledger, caller, key)) <==>
        caller in w.flights
        || exists i :: FollowUpHistory.Last(w.ended, caller, i) && w.ended[i].startedAt >= w.born
                       && !FollowUpHistory.Gone(w.ended, i)
  {
    FollowUpHistory.RecordedTold(c, clock, expiresAt);
    FollowUpHistory.RunTold(Recorded(clock, expiresAt), c, events);
    RecordsAreTold(Run(Recorded(clock, expiresAt), c, events), c, caller);
  }

  lemma RecordsAreTold(w: World, c: Config, caller: Caller)
    requires Inv(w, c) && FollowUpHistory.AllTold(w, c) && caller.provider != ""
    ensures (exists key :: HeldAt(w.ledger, caller, key)) <==>
        caller in w.flights
        || exists i :: FollowUpHistory.Last(w.ended, caller, i) && w.ended[i].startedAt >= w.born
                       && !FollowUpHistory.Gone(w.ended, i)
  {
    assert FollowUpHistory.Told(w, caller);
    if caller in w.flights {
      assert FlightOk(w, c, caller);
    } else if key :| HeldAt(w.ledger, caller, key) {
      var op := w.ledger.operations[key];
      var i :| FollowUpHistory.LastTold(w, caller, op, i);
    }
  }
}
