/** Who an inbound event reaches and who may answer it, told from the events that arrived before. */
module InboundReceivers {
  import opened Options
  import opened MessageWindow
  import opened FanOut
  import opened InboundRouting

  predicate Carries(e: Event, deliveryId: string) { e.Arrives? && e.inbound.deliveryId == deliveryId }

  predicate CarriesMessage(e: Event, key: MessageKey) { e.Arrives? && e.inbound.message == Some(key) }

  ghost predicate HeardOf(events: seq<Event>, deliveryId: string) {
    exists k :: 0 <= k < |events| && Carries(events[k], deliveryId)
  }

  ghost predicate HeardMessage(events: seq<Event>, key: MessageKey) {
    exists k :: 0 <= k < |events| && CarriesMessage(events[k], key)
  }

  /** The arrival that a delivery of the agent broker stems from. */
  ghost predicate StemsFrom(entry: AgentEntry, e: Event, deliveryId: string) {
    Carries(e, deliveryId) && e.inbound.message == entry.message && e.reach.agent == entry.receivers
    && !e.reach.conflict
  }

  ghost predicate Stems(events: seq<Event>, entry: AgentEntry, deliveryId: string) {
    exists k :: 0 <= k < |events| && StemsFrom(entry, events[k], deliveryId)
  }

  /** Nothing is in any table but what arrived. */
  ghost predicate Heard(r: Router, events: seq<Event>) {
    && (forall id :: id in r.deliveries || id in r.commands ==> HeardOf(events, id))
    && (forall id :: id in r.agents ==> Stems(events, r.agents[id], id))
    && (forall key :: key in r.messages || key in r.seen ==> HeardMessage(events, key))
  }

  lemma HeardEarlier(events: seq<Event>, e: Event)
    ensures forall id :: HeardOf(events, id) ==> HeardOf(events + [e], id)
    ensures forall key :: HeardMessage(events, key) ==> HeardMessage(events + [e], key)
    ensures forall entry, id :: Stems(events, entry, id) ==> Stems(events + [e], entry, id)
  {
    var all := events + [e];
    assert forall k :: 0 <= k < |events| ==> all[k] == events[k];
    forall id | HeardOf(events, id) ensures HeardOf(all, id) {
      var k :| 0 <= k < |events| && Carries(events[k], id);
      assert Carries(all[k], id);
    }
    forall key | HeardMessage(events, key) ensures HeardMessage(all, key) {
      var k :| 0 <= k < |events| && CarriesMessage(events[k], key);
      assert CarriesMessage(all[k], key);
    }
    forall entry, id | Stems(events, entry, id) ensures Stems(all, entry, id) {
      var k :| 0 <= k < |events| && StemsFrom(entry, events[k], id);
      assert StemsFrom(entry, all[k], id);
    }
  }

  /** A delivery keeps what it stems from, however long it is kept. */
  lemma StemsStay(events: seq<Event>, entry: AgentEntry, later: AgentEntry, deliveryId: string)
    requires Stems(events, entry, deliveryId) && later.message == entry.message && later.receivers == entry.receivers
    ensures Stems(events, later, deliveryId)
    ensures HeardOf(events, deliveryId) && (entry.message.Some? ==> HeardMessage(events, entry.message.value))
  {
    var k :| 0 <= k < |events| && StemsFrom(entry, events[k], deliveryId);
    assert StemsFrom(later, events[k], deliveryId) && Carries(events[k], deliveryId);
    assert entry.message.Some? ==> CarriesMessage(events[k], entry.message.value);
  }

  lemma ArrivalHeard(r: Router, events: seq<Event>, inbound: Inbound, at: int, reach: Reach)
    requires Heard(r, events)
    ensures Heard(Dispatch(r, inbound, at, reach).router, events + [Arrives(inbound, at, reach)])
  {
    var e := Arrives(inbound, at, reach);
    var all := events + [e];
    HeardEarlier(events, e);
    assert all[|events|] == e && Carries(all[|events|], inbound.deliveryId);
    assert HeardOf(all, inbound.deliveryId);
    if inbound.message.Some? {
      assert CarriesMessage(all[|events|], inbound.message.value);
      assert HeardMessage(all, inbound.message.value);
    }
    var p := PruneRoutes(r, at);
    hide HeardOf, HeardMessage, Stems;
    assert Heard(p, all);
    BrokersHeard(p, all, inbound, at, reach);
    hide OfferToBrokers;
  }

  lemma LastIsHeard(all: seq<Event>, inbound: Inbound, at: int, reach: Reach, until: int)
    requires all != [] && all[|all| - 1] == Arrives(inbound, at, reach)
    ensures HeardOf(all, inbound.deliveryId)
    ensures inbound.message.Some? ==> HeardMessage(all, inbound.message.value)
    ensures !reach.conflict ==> Stems(all, AgentEntry(until, inbound.message, reach.agent), inbound.deliveryId)
  {
    var e := all[|all| - 1];
    assert Carries(e, inbound.deliveryId);
    assert inbound.message.Some? ==> CarriesMessage(e, inbound.message.value);
    assert !reach.conflict ==> StemsFrom(AgentEntry(until, inbound.message, reach.agent), e, inbound.deliveryId);
  }

  lemma CommandsHeard(p: Router, all: seq<Event>, inbound: Inbound, at: int, reach: set<Principal>)
    requires Heard(p, all) && HeardOf(all, inbound.deliveryId)
    ensures var out := DispatchCommand(p, inbound, at, reach).router; Heard(out, all) && out.ttl == p.ttl
  {
    hide HeardOf, HeardMessage, Stems;
  }

  lemma AgentsHeard(p: Router, all: seq<Event>, inbound: Inbound, at: int, reach: set<Principal>, conflict: bool)
    requires Heard(p, all) && (inbound.message.Some? ==> HeardMessage(all, inbound.message.value))
    requires !conflict ==> Stems(all, AgentEntry(at + p.ttl, inbound.message, reach), inbound.deliveryId)
    ensures Heard(DispatchAgent(p, inbound, at, reach, conflict).router, all)
  {
    hide HeardOf, HeardMessage, Stems;
  }

  lemma BrokersHeard(p: Router, all: seq<Event>, inbound: Inbound, at: int, reach: Reach)
    requires Heard(p, all) && all != [] && all[|all| - 1] == Arrives(inbound, at, reach)
    ensures Heard(OfferToBrokers(p, inbound, at, reach).router, all)
  {
    LastIsHeard(all, inbound, at, reach, at + p.ttl);
    CommandsHeard(p, all, inbound, at, reach.legacy);
    var first := if inbound.agentOnly then p else DispatchCommand(p, inbound, at, reach.legacy).router;
    AgentsHeard(first, all, inbound, at, reach.agent, reach.conflict);
    hide Heard, HeardOf, HeardMessage, Stems, DispatchCommand, DispatchAgent;
  }

  lemma StartHeard(r: Router, events: seq<Event>, deliveryId: string, provider: string, appAllowed: bool, at: int,
                   until: int)
    requires Heard(r, events)
    ensures Heard(Pin(r, deliveryId, provider, appAllowed, at, until).router, events)
  {
    if deliveryId in r.agents {
      var entry := r.agents[deliveryId];
      StemsStay(events, entry, entry.(expiresAt := until), deliveryId);
    }
    hide HeardOf, HeardMessage, Stems;
  }

  lemma StepHeard(w: World, events: seq<Event>, e: Event, sendTimeout: int)
    requires Heard(w.router, events)
    ensures Heard(Step(w, e, sendTimeout).router, events + [e])
  {
    HeardEarlier(events, e);
    match e
    case Arrives(inbound, at, reach) => ArrivalHeard(w.router, events, inbound, at, reach);
    case Starts(deliveryId, provider, appAllowed, at) =>
      StartHeard(w.router, events, deliveryId, provider, appAllowed, at, PinUntil(at, sendTimeout));
      hide HeardOf, HeardMessage, Stems, Pin;
    case Prunes(at) => hide HeardOf, HeardMessage, Stems;
  }

  lemma {:induction false} RunHeard(w: World, before: seq<Event>, events: seq<Event>, sendTimeout: int)
    requires Heard(w.router, before)
    ensures Heard(Run(w, events, sendTimeout).router, before + events)
    decreases |events|
  {
    if events == [] {
      assert before + events == before;
    } else {
      StepHeard(w, before, events[0], sendTimeout);
      hide Heard, Step;
      RunHeard(Step(w, events[0], sendTimeout), before + [events[0]], events[1..], sendTimeout);
      assert before + [events[0]] + events[1..] == before + events;
    }
  }

  // ---------------------------------------------------------------- main results

  /**
    After any run, an event that has not arrived before, under its id or its message, goes to every
    legacy consumer with room, if it may go there and there is one; else to nobody if its
    conversation belongs to another application; else to every agent with room.
  */
  lemma FirstArrivalIsHandedOn(ttl: int, clock: int, events: seq<Event>, sendTimeout: int, inbound: Inbound, at: int,
                               reach: Reach)
    requires !HeardOf(events, inbound.deliveryId)
    requires inbound.message.Some? ==> !HeardMessage(events, inbound.message.value)
    ensures var out := Dispatch(Run(Idle(ttl, clock), events, sendTimeout).router, inbound, at, reach);
      if !inbound.agentOnly && reach.legacy != {} then out.legacy == |reach.legacy| && out.agent == 0
      else out.legacy == 0 && out.agent == if reach.conflict then 0 else |reach.agent|
  {
    RunHeard(Idle(ttl, clock), [], events, sendTimeout);
    assert [] + events == events;
    var r := Run(Idle(ttl, clock), events, sendTimeout).router;
    if inbound.deliveryId in r.agents {
      var entry := r.agents[inbound.deliveryId];
      StemsStay(events, entry, entry, inbound.deliveryId);
    }
    NothingKnowsIt(r, inbound, at, reach);
    hide Run;
  }

  lemma NothingKnowsIt(r: Router, inbound: Inbound, at: int, reach: Reach)
    requires inbound.deliveryId !in r.deliveries && inbound.deliveryId !in r.commands && inbound.deliveryId !in r.agents
    requires inbound.message.Some? ==> inbound.message.value !in r.messages && inbound.message.value !in r.seen
    ensures var out := Dispatch(r, inbound, at, reach);
      if !inbound.agentOnly && reach.legacy != {} then out.legacy == |reach.legacy| && out.agent == 0
      else out.legacy == 0 && out.agent == if reach.conflict then 0 else |reach.agent|
  {
    assert reach.agent != {} ==> |reach.agent| > 0;
  }

  /**
    After any run, a start attempt finds a delivery only if its provider was among the agents that
    the event of this id could be handed to when it arrived, in a conversation of no other
    application, and the application is allowed to the provider now.
  */
  lemma OnlyReceiversFindTheDelivery(ttl: int, clock: int, events: seq<Event>, sendTimeout: int, deliveryId: string,
                                     provider: string, appAllowed: bool, now: int)
    requires Pin(Run(Idle(ttl, clock), events, sendTimeout).router, deliveryId, provider, appAllowed, now,
                 PinUntil(now, sendTimeout)).found
    ensures appAllowed
    ensures exists k :: 0 <= k < |events| && Carries(events[k], deliveryId) && !events[k].reach.conflict
                        && Principal(provider, false) in events[k].reach.agent
  {
    RunHeard(Idle(ttl, clock), [], events, sendTimeout);
    assert [] + events == events;
    var r := Run(Idle(ttl, clock), events, sendTimeout).router;
    var entry := r.agents[deliveryId];
    var k :| 0 <= k < |events| && StemsFrom(entry, events[k], deliveryId);
    hide Run;
  }

  /** The delivery is kept at least until then, for the same receivers. */
  ghost predicate Kept(w: World, deliveryId: string, receivers: set<Principal>, until: int) {
    deliveryId in w.router.agents && w.router.agents[deliveryId].receivers == receivers
    && w.router.agents[deliveryId].expiresAt >= until
  }

  lemma KeptThroughBrokers(w: World, deliveryId: string, receivers: set<Principal>, until: int,
                           inbound: Inbound, at: int, reach: Reach)
    requires Kept(w, deliveryId, receivers, until) && at <= until
    ensures Kept(w.(router := OfferToBrokers(w.router, inbound, at, reach).router), deliveryId, receivers, until)
  {
    var first := if inbound.agentOnly then w.router else DispatchCommand(w.router, inbound, at, reach.legacy).router;
    assert first.agents == w.router.agents;
  }

  lemma KeptStep(w: World, deliveryId: string, receivers: set<Principal>, until: int, e: Event, sendTimeout: int)
    requires Kept(w, deliveryId, receivers, until) && e.at <= until
    ensures Kept(Step(w, e, sendTimeout), deliveryId, receivers, until)
  {
    match e
    case Arrives(inbound, at, reach) =>
      var p := w.(router := PruneRoutes(w.router, at));
      KeptThroughBrokers(p, deliveryId, receivers, until, inbound, at, reach);
      hide OfferToBrokers, Live, Known;
    case Starts(_, _, _, _) =>
    case Prunes(_) =>
  }

  lemma {:induction false} RunKept(w: World, deliveryId: string, receivers: set<Principal>, until: int,
                                   events: seq<Event>, sendTimeout: int)
    requires Kept(w, deliveryId, receivers, until) && Timely(w, events, sendTimeout)
    requires Run(w, events, sendTimeout).clock <= until
    ensures Kept(Run(w, events, sendTimeout), deliveryId, receivers, until)
    decreases |events|
  {
    if events != [] {
      ClockMovesOn(Step(w, events[0], sendTimeout), events[1..], sendTimeout);
      StepTime(w, events[0], sendTimeout);
      KeptStep(w, deliveryId, receivers, until, events[0], sendTimeout);
      hide Kept, Step;
      RunKept(Step(w, events[0], sendTimeout), deliveryId, receivers, until, events[1..], sendTimeout);
    }
  }

  /**
    For a lifetime after an event was handed to agents, whatever else happens, each agent it was
    handed to finds its delivery as long as the application is allowed to it.
  */
  lemma EveryReceiverFindsTheDelivery(w: World, inbound: Inbound, at: int, reach: Reach, events: seq<Event>,
                                      sendTimeout: int, provider: string, now: int)
    requires Dispatch(w.router, inbound, at, reach).agent > 0 && Principal(provider, false) in reach.agent
    requires var v := Step(w, Arrives(inbound, at, reach), sendTimeout);
      Timely(v, events, sendTimeout) && Run(v, events, sendTimeout).clock <= now <= at + w.router.ttl
    ensures var v := Step(w, Arrives(inbound, at, reach), sendTimeout);
      Pin(Run(v, events, sendTimeout).router, inbound.deliveryId, provider, true, now, PinUntil(now, sendTimeout)).found
  {
    var v := Step(w, Arrives(inbound, at, reach), sendTimeout);
    assert Kept(v, inbound.deliveryId, reach.agent, at + w.router.ttl);
    RunKept(v, inbound.deliveryId, reach.agent, at + w.router.ttl, events, sendTimeout);
    hide Run, Step;
  }
}
