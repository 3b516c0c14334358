/**
  Where an inbound event goes: the route registry in front of the legacy command broker and the
  agent broker, expiry of all their tables, and the pin that a start attempt puts on a delivery.
*/
module InboundRouting {
  import opened Options
  import opened MessageWindow
  import opened FanOut

  /** The dedupe key of a message, as the pair it is derived from. */
  datatype MessageKey = MessageKey(app: string, messageId: string)

  datatype Inbound = Inbound(deliveryId: string, message: Option<MessageKey>, agentOnly: bool)

  /** Whom each broker could hand the event to now, and whether its conversation belongs to another app. */
  datatype Reach = Reach(legacy: set<Principal>, agent: set<Principal>, conflict: bool)

  /** A delivery of the agent broker: only its receivers may start a response to it. */
  datatype AgentEntry = AgentEntry(expiresAt: int, message: Option<MessageKey>, receivers: set<Principal>)

  datatype Router = Router(
    ttl: int,
    deliveries: map<string, int>,
    messages: map<MessageKey, int>,
    commands: map<string, int>,
    agents: map<string, AgentEntry>,
    seen: map<MessageKey, int>)

  function Live<K>(m: map<K, int>, now: int): map<K, int> { map k | k in m && now <= m[k] :: m[k] }

  function LiveAgents(m: map<string, AgentEntry>, now: int): map<string, AgentEntry> {
    map k | k in m && now <= m[k].expiresAt :: m[k]
  }

  function PruneRoutes(r: Router, now: int): Router {
    r.(deliveries := Live(r.deliveries, now), messages := Live(r.messages, now))
  }

  function PruneCommands(r: Router, now: int): Router { r.(commands := Live(r.commands, now)) }

  function PruneAgents(r: Router, now: int): Router {
    r.(agents := LiveAgents(r.agents, now), seen := Live(r.seen, now))
  }

  datatype Routed = Routed(router: Router, legacy: nat, agent: nat, handled: bool)

  /** The brokers behind the registry never touch its own two tables. */
  predicate SameRegistry(a: Router, b: Router) {
    a.ttl == b.ttl && a.deliveries == b.deliveries && a.messages == b.messages
  }

  function DispatchCommand(r: Router, inbound: Inbound, now: int, reach: set<Principal>): (out: Routed)
    ensures out.agent == 0 && (out.legacy > 0 ==> out.handled) && SameRegistry(out.router, r)
  {
    var p := PruneCommands(r, now);
    if inbound.deliveryId in p.commands then Routed(p, 0, 0, true)
    else if reach == {} then Routed(p, 0, 0, false)
    else Routed(p.(commands := p.commands[inbound.deliveryId := now + r.ttl]), |reach|, 0, true)
  }

  function DispatchAgent(r: Router, inbound: Inbound, now: int, reach: set<Principal>, conflict: bool): (out: Routed)
    ensures out.legacy == 0 && (out.agent > 0 ==> out.handled) && SameRegistry(out.router, r)
  {
    var p := PruneAgents(r, now);
    if inbound.deliveryId in p.agents then Routed(p, 0, 0, true)
    else if inbound.message.Some? && inbound.message.value in p.seen then Routed(p, 0, 0, true)
    else if conflict then Routed(p, 0, 0, true)
    else if reach == {} then Routed(p, 0, 0, false)
    else
      Routed(p.(agents := p.agents[inbound.deliveryId := AgentEntry(now + r.ttl, inbound.message, reach)],
                seen := if inbound.message.Some? then p.seen[inbound.message.value := now + r.ttl] else p.seen),
             0, |reach|, true)
  }

  predicate Known(r: Router, inbound: Inbound) {
    inbound.deliveryId in r.deliveries || (inbound.message.Some? && inbound.message.value in r.messages)
  }

  function OfferToBrokers(p: Router, inbound: Inbound, now: int, reach: Reach): (out: Routed)
    ensures out.legacy == 0 || out.agent == 0
    ensures (out.legacy + out.agent > 0 ==> out.handled) && SameRegistry(out.router, p)
  {
    var first := if inbound.agentOnly then Routed(p, 0, 0, false) else DispatchCommand(p, inbound, now, reach.legacy);
    if first.handled then first else DispatchAgent(first.router, inbound, now, reach.agent, reach.conflict)
  }

  /** A handled event, even one the broker itself knew, is remembered for another lifetime. */
  function Register(r: Router, inbound: Inbound, now: int): Router {
    r.(deliveries := r.deliveries[inbound.deliveryId := now + r.ttl],
       messages := if inbound.message.Some? then r.messages[inbound.message.value := now + r.ttl] else r.messages)
  }

  function Dispatch(r: Router, inbound: Inbound, now: int, reach: Reach): (out: Routed)
    ensures (out.legacy + out.agent > 0 ==> out.handled) && out.router.ttl == r.ttl
  {
    var p := PruneRoutes(r, now);
    if Known(p, inbound) then Routed(p, 0, 0, false)
    else
      var out := OfferToBrokers(p, inbound, now, reach);
      if out.handled then out.(router := Register(out.router, inbound, now)) else out
  }

  datatype Pinned = Pinned(router: Router, found: bool)

  predicate MayStart(entry: AgentEntry, provider: string, appAllowed: bool) {
    Principal(provider, false) in entry.receivers && appAllowed
  }

  /** Extends the delivery and its message in the broker, and rewrites both registry entries. */
  function Pin(r: Router, deliveryId: string, provider: string, appAllowed: bool, now: int, until: int): (out: Pinned)
    ensures out.router.ttl == r.ttl
  {
    var p := PruneAgents(PruneRoutes(r, now), now);
    if deliveryId !in p.agents || !MayStart(p.agents[deliveryId], provider, appAllowed) then Pinned(p, false)
    else
      var entry := p.agents[deliveryId];
      var key := entry.message;
      Pinned(
        p.(agents := p.agents[
             deliveryId := entry.(expiresAt := if entry.expiresAt < until then until else entry.expiresAt)],
           seen :=
             if key.Some? && (key.value !in p.seen || p.seen[key.value] < until) then p.seen[key.value := until]
             else p.seen,
           deliveries := p.deliveries[deliveryId := until],
           messages := if key.Some? then p.messages[key.value := until] else p.messages),
        true)
  }

  // ---------------------------------------------------------------- runs

  datatype Event =
    | Arrives(inbound: Inbound, at: int, reach: Reach)
    | Starts(deliveryId: string, provider: string, appAllowed: bool, at: int)
    | Prunes(at: int)

  datatype Handing = Handing(deliveryId: string, message: Option<MessageKey>, legacy: bool, at: int)

  /** `lease` and `messageLease` remember the last expiry written, even after it was pruned. */
  datatype World = World(
    router: Router, handed: seq<Handing>, lease: map<string, int>, messageLease: map<MessageKey, int>, clock: int)

  function PinUntil(at: int, sendTimeout: int): int { at + WINDOW + sendTimeout }

  function Step(w: World, e: Event, sendTimeout: int): World {
    match e
    case Arrives(inbound, at, reach) =>
      var out := Dispatch(w.router, inbound, at, reach);
      World(out.router,
            if out.legacy + out.agent > 0
            then w.handed + [Handing(inbound.deliveryId, inbound.message, out.legacy > 0, at)]
            else w.handed,
            if out.handled then w.lease[inbound.deliveryId := at + w.router.ttl] else w.lease,
            if out.handled && inbound.message.Some? then w.messageLease[inbound.message.value := at + w.router.ttl]
            else w.messageLease,
            at)
    case Starts(deliveryId, provider, appAllowed, at) =>
      var until := PinUntil(at, sendTimeout);
      var out := Pin(w.router, deliveryId, provider, appAllowed, at, until);
      var key := if deliveryId in w.router.agents then w.router.agents[deliveryId].message else None;
      World(out.router, w.handed,
            if out.found then w.lease[deliveryId := until] else w.lease,
            if out.found && key.Some? then w.messageLease[key.value := until] else w.messageLease,
            at)
    case Prunes(at) => w.(router := PruneAgents(PruneCommands(w.router, at), at), clock := at)
  }

  predicate Timely(w: World, events: seq<Event>, sendTimeout: int)
    decreases |events|
  {
    events == [] || (w.clock <= events[0].at && Timely(Step(w, events[0], sendTimeout), events[1..], sendTimeout))
  }

  function Run(w: World, events: seq<Event>, sendTimeout: int): World
    decreases |events|
  {
    if events == [] then w else Run(Step(w, events[0], sendTimeout), events[1..], sendTimeout)
  }

  function Idle(ttl: int, clock: int): World {
    World(Router(ttl, map[], map[], map[], map[], map[]), [], map[], map[], clock)
  }

  // ---------------------------------------------------------------- what every state keeps

  ghost predicate Tracks<K(!new)>(entries: map<K, int>, lease: map<K, int>, clock: int) {
    && (forall k :: k in entries ==> k in lease && lease[k] == entries[k])
    && (forall k :: k in lease && clock <= lease[k] ==> k in entries)
  }

  ghost predicate Inv(w: World) {
    && Tracks(w.router.deliveries, w.lease, w.clock)
    && Tracks(w.router.messages, w.messageLease, w.clock)
    && (forall i :: 0 <= i < |w.handed| ==> w.handed[i].deliveryId in w.lease)
    && (forall i :: 0 <= i < |w.handed| && w.handed[i].message.Some? ==> w.handed[i].message.value in w.messageLease)
  }

  lemma TracksLater<K(!new)>(entries: map<K, int>, lease: map<K, int>, clock: int, at: int)
    requires Tracks(entries, lease, clock) && clock <= at
    ensures Tracks(Live(entries, at), lease, at)
  {
  }

  lemma TracksWrite<K(!new)>(entries: map<K, int>, lease: map<K, int>, clock: int, k: K, until: int)
    requires Tracks(entries, lease, clock)
    ensures Tracks(entries[k := until], lease[k := until], clock)
  {
  }

  /** A dispatch prunes the registry, and enters what was handled. */
  lemma DispatchWritesTheRegistry(r: Router, inbound: Inbound, now: int, reach: Reach)
    ensures var out := Dispatch(r, inbound, now, reach);
      var was := PruneRoutes(r, now);
      && out.router.deliveries ==
           (if out.handled then was.deliveries[inbound.deliveryId := now + r.ttl] else was.deliveries)
      && out.router.messages ==
           (if out.handled && inbound.message.Some? then was.messages[inbound.message.value := now + r.ttl]
            else was.messages)
      && (Known(was, inbound) ==> !out.handled)
      && (!out.handled || Known(was, inbound) ==> out.legacy + out.agent == 0)
      && (out.legacy == 0 || out.agent == 0)
  {
    hide OfferToBrokers, Live, Known;
  }

  lemma PinWritesTheRegistry(r: Router, deliveryId: string, provider: string, appAllowed: bool, now: int, until: int)
    ensures var out := Pin(r, deliveryId, provider, appAllowed, now, until);
      var was := PruneRoutes(r, now);
      && (out.found ==> deliveryId in r.agents)
      && out.router.deliveries == (if out.found then was.deliveries[deliveryId := until] else was.deliveries)
      && out.router.messages ==
           (if out.found && r.agents[deliveryId].message.Some?
            then was.messages[r.agents[deliveryId].message.value := until]
            else was.messages)
  {
  }

  lemma ArrivalInv(w: World, inbound: Inbound, at: int, reach: Reach, sendTimeout: int)
    requires Inv(w) && w.clock <= at
    ensures Inv(Step(w, Arrives(inbound, at, reach), sendTimeout))
  {
    hide Dispatch, Tracks, Live, Known;
    DispatchWritesTheRegistry(w.router, inbound, at, reach);
    TracksLater(w.router.deliveries, w.lease, w.clock, at);
    TracksLater(w.router.messages, w.messageLease, w.clock, at);
    var was := PruneRoutes(w.router, at);
    TracksWrite(was.deliveries, w.lease, at, inbound.deliveryId, at + w.router.ttl);
    if inbound.message.Some? {
      TracksWrite(was.messages, w.messageLease, at, inbound.message.value, at + w.router.ttl);
    }
  }

  lemma StartInv(w: World, deliveryId: string, provider: string, appAllowed: bool, at: int, sendTimeout: int)
    requires Inv(w) && w.clock <= at
    ensures Inv(Step(w, Starts(deliveryId, provider, appAllowed, at), sendTimeout))
  {
    var until := PinUntil(at, sendTimeout);
    PinWritesTheRegistry(w.router, deliveryId, provider, appAllowed, at, until);
    TracksLater(w.router.deliveries, w.lease, w.clock, at);
    TracksLater(w.router.messages, w.messageLease, w.clock, at);
    var was := PruneRoutes(w.router, at);
    TracksWrite(was.deliveries, w.lease, at, deliveryId, until);
    if deliveryId in w.router.agents && w.router.agents[deliveryId].message.Some? {
      TracksWrite(was.messages, w.messageLease, at, w.router.agents[deliveryId].message.value, until);
    }
    hide Pin, Tracks, Live;
  }

  lemma StepInv(w: World, e: Event, sendTimeout: int)
    requires Inv(w) && w.clock <= e.at
    ensures Inv(Step(w, e, sendTimeout))
  {
    match e
    case Arrives(inbound, at, reach) => ArrivalInv(w, inbound, at, reach, sendTimeout);
    case Starts(deliveryId, provider, appAllowed, at) => StartInv(w, deliveryId, provider, appAllowed, at, sendTimeout);
    case Prunes(at) =>
  }

  lemma {:induction false} RunInv(w: World, events: seq<Event>, sendTimeout: int)
    requires Inv(w) && Timely(w, events, sendTimeout)
    ensures Inv(Run(w, events, sendTimeout))
    decreases |events|
  {
    if events != [] {
      StepInv(w, events[0], sendTimeout);
      RunInv(Step(w, events[0], sendTimeout), events[1..], sendTimeout);
    }
  }

  // ---------------------------------------------------------------- main results

  /**
    After any run, an event is handed over only if no earlier hand-over of its delivery id, nor
    of its message, is still leased; it goes to one broker only; and an event that is leased
    reaches nobody.
  */
  lemma HandedOnceWhileLeased(ttl: int, clock: int, events: seq<Event>, sendTimeout: int, inbound: Inbound, at: int,
                              reach: Reach)
    requires Timely(Idle(ttl, clock), events, sendTimeout)
    requires Run(Idle(ttl, clock), events, sendTimeout).clock <= at
    ensures var w := Run(Idle(ttl, clock), events, sendTimeout);
      var out := Dispatch(w.router, inbound, at, reach);
      && (out.legacy == 0 || out.agent == 0)
      && (inbound.deliveryId in w.lease && at <= w.lease[inbound.deliveryId] ==> out.legacy + out.agent == 0)
      && ((inbound.message.Some? && inbound.message.value in w.messageLease
           && at <= w.messageLease[inbound.message.value]) ==>
            out.legacy + out.agent == 0)
      && (forall i :: 0 <= i < |w.handed| && w.handed[i].deliveryId == inbound.deliveryId ==>
        inbound.deliveryId in w.lease)
      && (forall i :: 0 <= i < |w.handed| && w.handed[i].message.Some? && w.handed[i].message == inbound.message ==>
            inbound.message.value in w.messageLease)
  {
    RunInv(Idle(ttl, clock), events, sendTimeout);
    DispatchWritesTheRegistry(Run(Idle(ttl, clock), events, sendTimeout).router, inbound, at, reach);
  }

  /** How far apart two hand-overs of one event must be: the dedupe lifetime, or what a pin leaves of it. */
  function Gap(ttl: int, sendTimeout: int): int { if ttl <= WINDOW + sendTimeout then ttl else WINDOW + sendTimeout }

  predicate SameEvent(a: Handing, b: Handing) {
    a.deliveryId == b.deliveryId || (a.message.Some? && a.message == b.message)
  }

  /** Every hand-over still has a lease at least `gap` past it. */
  ghost predicate Leased(w: World, gap: int) {
    && (forall i :: 0 <= i < |w.handed| ==>
          var h := w.handed[i];
          h.at <= w.clock && h.deliveryId in w.lease && w.lease[h.deliveryId] >= h.at + gap)
    && (forall i :: 0 <= i < |w.handed| && w.handed[i].message.Some? ==>
          var h := w.handed[i];
          h.message.value in w.messageLease && w.messageLease[h.message.value] >= h.at + gap)
  }

  ghost predicate Apart(w: World, gap: int) {
    forall i, j :: 0 <= i < j < |w.handed| && SameEvent(w.handed[i], w.handed[j]) ==>
      w.handed[i].at + gap < w.handed[j].at
  }

  lemma StepLeased(w: World, e: Event, sendTimeout: int)
    requires Leased(w, Gap(w.router.ttl, sendTimeout)) && w.clock <= e.at
    ensures Leased(Step(w, e, sendTimeout), Gap(w.router.ttl, sendTimeout))
      && Step(w, e, sendTimeout).router.ttl == w.router.ttl
  {
    hide Dispatch, Pin, PruneAgents, PruneCommands;
    TtlStays(w, e);
  }

  lemma TtlStays(w: World, e: Event)
    ensures PruneAgents(PruneCommands(w.router, e.at), e.at).ttl == w.router.ttl
  {
  }

  lemma StepApart(w: World, e: Event, sendTimeout: int)
    requires Inv(w) && Leased(w, Gap(w.router.ttl, sendTimeout)) && Apart(w, Gap(w.router.ttl, sendTimeout))
      && w.clock <= e.at
    ensures Apart(Step(w, e, sendTimeout), Gap(w.router.ttl, sendTimeout))
  {
    hide Dispatch, Pin, PruneAgents, PruneCommands;
    if e.Arrives? {
      DispatchWritesTheRegistry(w.router, e.inbound, e.at, e.reach);
      hide PruneRoutes, Known;
      if !Known(PruneRoutes(w.router, e.at), e.inbound) {
        NotKnownNotLeased(w, e.inbound, e.at);
      }
    }
  }

  /** An event the pruned registry does not know has no live lease. */
  lemma NotKnownNotLeased(w: World, inbound: Inbound, at: int)
    requires Inv(w) && w.clock <= at && !Known(PruneRoutes(w.router, at), inbound)
    ensures inbound.deliveryId in w.lease ==> w.lease[inbound.deliveryId] < at
    ensures inbound.message.Some? && inbound.message.value in w.messageLease ==>
      w.messageLease[inbound.message.value] < at
  {
  }

  lemma {:induction false} RunApart(w: World, events: seq<Event>, sendTimeout: int)
    requires Inv(w) && Leased(w, Gap(w.router.ttl, sendTimeout)) && Apart(w, Gap(w.router.ttl, sendTimeout))
    requires Timely(w, events, sendTimeout)
    ensures Apart(Run(w, events, sendTimeout), Gap(w.router.ttl, sendTimeout))
    decreases |events|
  {
    hide Inv, Leased, Apart, Step;
    if events != [] {
      StepInv(w, events[0], sendTimeout);
      StepLeased(w, events[0], sendTimeout);
      StepApart(w, events[0], sendTimeout);
      RunApart(Step(w, events[0], sendTimeout), events[1..], sendTimeout);
    }
  }

  /**
    Over any run of dispatches, pins and prunes, two hand-overs of one event, by delivery id or
    by message and to whichever broker, lie further apart than the dedupe lifetime, or than the
    hour and send timeout a start attempt leaves of it.
  */
  lemma HandOversLieApart(ttl: int, clock: int, events: seq<Event>, sendTimeout: int)
    requires Timely(Idle(ttl, clock), events, sendTimeout)
    ensures Apart(Run(Idle(ttl, clock), events, sendTimeout), Gap(ttl, sendTimeout))
  {
    RunApart(Idle(ttl, clock), events, sendTimeout);
  }

  /** The delivery and everything that keeps its event from being routed again are alive until `until`. */
  ghost predicate Held(w: World, deliveryId: string, until: int) {
    && deliveryId in w.router.agents && w.router.agents[deliveryId].expiresAt >= until
    && deliveryId in w.router.deliveries && w.router.deliveries[deliveryId] >= until
    && (w.router.agents[deliveryId].message.Some? ==>
          var key := w.router.agents[deliveryId].message.value;
          && key in w.router.seen && w.router.seen[key] >= until
          && key in w.router.messages && w.router.messages[key] >= until)
  }

  /** What a start attempt of one of the receivers leads to. */
  function Started(w: World, deliveryId: string, provider: string, at: int, sendTimeout: int): World {
    Step(w, Starts(deliveryId, provider, true, at), sendTimeout)
  }

  lemma StartHolds(w: World, deliveryId: string, provider: string, at: int, sendTimeout: int)
    requires Inv(w) && w.clock <= at && sendTimeout >= 0
    requires Pin(w.router, deliveryId, provider, true, at, PinUntil(at, sendTimeout)).found
    ensures Held(Started(w, deliveryId, provider, at, sendTimeout), deliveryId, PinUntil(at, sendTimeout))
    ensures SameDelivery(w, Started(w, deliveryId, provider, at, sendTimeout), deliveryId)
  {
  }

  /** The delivery is there in both, for the same message and the same receivers. */
  ghost predicate SameDelivery(w: World, v: World, deliveryId: string) {
    && deliveryId in w.router.agents && deliveryId in v.router.agents
    && v.router.agents[deliveryId].message == w.router.agents[deliveryId].message
    && v.router.agents[deliveryId].receivers == w.router.agents[deliveryId].receivers
  }

  lemma HeldByTheBroker(w: World, deliveryId: string, until: int, inbound: Inbound, at: int, reach: Reach)
    requires Held(w, deliveryId, until) && at <= until
    ensures var out := DispatchAgent(w.router, inbound, at, reach.agent, reach.conflict);
      Held(w.(router := out.router), deliveryId, until) && SameDelivery(w, w.(router := out.router), deliveryId)
  {
  }

  lemma HeldByTheBrokers(w: World, deliveryId: string, until: int, inbound: Inbound, at: int, reach: Reach)
    requires Held(w, deliveryId, until) && at <= until
    ensures var out := OfferToBrokers(w.router, inbound, at, reach);
      Held(w.(router := out.router), deliveryId, until) && SameDelivery(w, w.(router := out.router), deliveryId)
  {
    hide DispatchAgent;
    var first :=
      if inbound.agentOnly then Routed(w.router, 0, 0, false)
      else DispatchCommand(w.router, inbound, at, reach.legacy);
    assert Held(w.(router := first.router), deliveryId, until);
    HeldByTheBroker(w.(router := first.router), deliveryId, until, inbound, at, reach);
  }

  lemma HeldByTheRegistry(w: World, deliveryId: string, until: int, inbound: Inbound, at: int)
    requires Held(w, deliveryId, until) && at <= until
    ensures Held(w.(router := PruneRoutes(w.router, at)), deliveryId, until)
    ensures !Known(PruneRoutes(w.router, at), inbound) ==>
              inbound.deliveryId != deliveryId
              && (inbound.message.Some? ==> inbound.message != w.router.agents[deliveryId].message)
  {
  }

  lemma HeldThroughArrival(w: World, deliveryId: string, until: int, inbound: Inbound, at: int, reach: Reach,
                           sendTimeout: int)
    requires Held(w, deliveryId, until) && at <= until <= PinUntil(at, sendTimeout)
    ensures var v := Step(w, Arrives(inbound, at, reach), sendTimeout);
      Held(v, deliveryId, until) && SameDelivery(w, v, deliveryId)
  {
    hide OfferToBrokers, Live, Known;
    var p := w.(router := PruneRoutes(w.router, at));
    HeldByTheRegistry(w, deliveryId, until, inbound, at);
    HeldByTheBrokers(p, deliveryId, until, inbound, at, reach);
  }

  lemma HeldThroughStart(w: World, deliveryId: string, until: int, other: string, provider: string,
                         appAllowed: bool, at: int, sendTimeout: int)
    requires Held(w, deliveryId, until) && at <= until <= PinUntil(at, sendTimeout)
    ensures var v := Step(w, Starts(other, provider, appAllowed, at), sendTimeout);
      Held(v, deliveryId, until) && SameDelivery(w, v, deliveryId)
  {
  }

  lemma HeldStep(w: World, deliveryId: string, until: int, e: Event, sendTimeout: int)
    requires Held(w, deliveryId, until) && e.at <= until <= PinUntil(e.at, sendTimeout)
    ensures Held(Step(w, e, sendTimeout), deliveryId, until)
    ensures SameDelivery(w, Step(w, e, sendTimeout), deliveryId)
  {
    hide Dispatch, Pin;
    match e
    case Arrives(inbound, at, reach) => HeldThroughArrival(w, deliveryId, until, inbound, at, reach, sendTimeout);
    case Starts(other, provider, appAllowed, at) =>
      HeldThroughStart(w, deliveryId, until, other, provider, appAllowed, at, sendTimeout);
    case Prunes(at) =>
  }

  /** The event of a delivery, by its id or by its message. */
  predicate IsEventOf(inbound: Inbound, deliveryId: string, entry: AgentEntry) {
    inbound.deliveryId == deliveryId || (inbound.message.Some? && inbound.message == entry.message)
  }

  /** Every receiver finds the delivery to start or retry on it, and no copy of its event goes to anyone. */
  ghost predicate RetryIsSafe(w: World, deliveryId: string, sendTimeout: int) {
    && deliveryId in w.router.agents
    && (forall provider :: Principal(provider, false) in w.router.agents[deliveryId].receivers ==>
          Pin(w.router, deliveryId, provider, true, w.clock, PinUntil(w.clock, sendTimeout)).found)
    && (forall inbound: Inbound, reach: Reach :: IsEventOf(inbound, deliveryId, w.router.agents[deliveryId]) ==>
          Dispatch(w.router, inbound, w.clock, reach).legacy + Dispatch(w.router, inbound, w.clock, reach).agent == 0)
  }

  /**
    From any start attempt on, and whatever else arrives, is pinned or is pruned in the next
    hour and send timeout, the delivery stays addressable and no copy of its event, under its
    delivery id or its message, is handed to anyone.
  */
  lemma {:induction false} NothingIsReroutedWhilePinned(w: World, deliveryId: string, at: int, events: seq<Event>,
                                                        sendTimeout: int)
    requires Inv(w) && at <= w.clock && sendTimeout >= 0 && Held(w, deliveryId, PinUntil(at, sendTimeout))
    requires Timely(w, events, sendTimeout) && Run(w, events, sendTimeout).clock <= PinUntil(at, sendTimeout)
    ensures RetryIsSafe(Run(w, events, sendTimeout), deliveryId, sendTimeout)
    ensures SameDelivery(w, Run(w, events, sendTimeout), deliveryId)
    decreases |events|
  {
    if events == [] {
      HeldIsSafe(w, deliveryId, PinUntil(at, sendTimeout), sendTimeout);
    } else {
      ClockMovesOn(Step(w, events[0], sendTimeout), events[1..], sendTimeout);
      HeldStep(w, deliveryId, PinUntil(at, sendTimeout), events[0], sendTimeout);
      StepInv(w, events[0], sendTimeout);
      hide Inv, Held, RetryIsSafe, Step;
      StepTime(w, events[0], sendTimeout);
      NothingIsReroutedWhilePinned(Step(w, events[0], sendTimeout), deliveryId, at, events[1..], sendTimeout);
    }
  }

  lemma StepTime(w: World, e: Event, sendTimeout: int)
    ensures Step(w, e, sendTimeout).clock == e.at
  {
  }

  lemma HeldIsSafe(w: World, deliveryId: string, until: int, sendTimeout: int)
    requires Held(w, deliveryId, until) && w.clock <= until
    ensures RetryIsSafe(w, deliveryId, sendTimeout)
  {
    hide OfferToBrokers;
  }

  lemma {:induction false} ClockMovesOn(w: World, events: seq<Event>, sendTimeout: int)
    requires Timely(w, events, sendTimeout)
    ensures w.clock <= Run(w, events, sendTimeout).clock
    decreases |events|
  {
    if events != [] {
      ClockMovesOn(Step(w, events[0], sendTimeout), events[1..], sendTimeout);
    }
  }

  // ---------------------------------------------------------------- while a retry is legal

  /** A retry of a send that was ambiguous when it began at `ambiguousAt` is let through. */
  predicate LegalRetry(now: int, sendTimeout: int, ambiguousAt: int) {
    ambiguousAt <= now && !RetryWindowExhausted(now, sendTimeout, Some(ambiguousAt))
  }

  /**
    A start attempt pins its delivery when it arrives, before it waits its turn and creates the
    card; its send may begin any time later. The pin lasts through every moment a retry of that
    send is legal iff the send began at most two send timeouts, and a millisecond, after the pin.
  */
  lemma PinOutlastsLegalRetriesIff(pinnedAt: int, ambiguousAt: int, sendTimeout: int)
    requires 0 <= sendTimeout < WINDOW && pinnedAt <= ambiguousAt
    ensures (forall now :: LegalRetry(now, sendTimeout, ambiguousAt) ==> now <= PinUntil(pinnedAt, sendTimeout))
            <==> ambiguousAt <= pinnedAt + 2 * sendTimeout + 1
  {
    var last := ambiguousAt + WINDOW - sendTimeout - 1;
    assert LegalRetry(last, sendTimeout, ambiguousAt);
  }

  /** While a retry is legal nothing is routed again, if the send began that soon after its pin. */
  lemma NothingIsReroutedWhileARetryIsLegal(
      w: World, deliveryId: string, provider: string, pinnedAt: int, ambiguousAt: int, events: seq<Event>,
      sendTimeout: int)
    requires Inv(w) && w.clock <= pinnedAt && 0 <= sendTimeout < WINDOW
    requires Pin(w.router, deliveryId, provider, true, pinnedAt, PinUntil(pinnedAt, sendTimeout)).found
    requires pinnedAt <= ambiguousAt <= pinnedAt + 2 * sendTimeout + 1
    requires Timely(Started(w, deliveryId, provider, pinnedAt, sendTimeout), events, sendTimeout)
    requires LegalRetry(Run(Started(w, deliveryId, provider, pinnedAt, sendTimeout), events, sendTimeout).clock,
      sendTimeout, ambiguousAt)
    ensures RetryIsSafe(Run(Started(w, deliveryId, provider, pinnedAt, sendTimeout), events, sendTimeout), deliveryId,
      sendTimeout)
  {
    hide Inv, Step, Pin, RetryIsSafe, Run;
    StartHolds(w, deliveryId, provider, pinnedAt, sendTimeout);
    StepInv(w, Starts(deliveryId, provider, true, pinnedAt), sendTimeout);
    StepTime(w, Starts(deliveryId, provider, true, pinnedAt), sendTimeout);
    PinOutlastsLegalRetriesIff(pinnedAt, ambiguousAt, sendTimeout);
    NothingIsReroutedWhilePinned(Started(w, deliveryId, provider, pinnedAt, sendTimeout), deliveryId, pinnedAt, events,
      sendTimeout);
  }

  /** The last moment at which that retry is let through. */
  function LastRetry(ambiguousAt: int, sendTimeout: int): int { ambiguousAt + WINDOW - sendTimeout - 1 }

  /**
    The one case in which an event is held back after its pin: it has no message, the legacy
    broker had it too, and neither broker forgets it before `until`.
  */
  ghost predicate KnownToBoth(w: World, deliveryId: string, until: int) {
    && deliveryId in w.router.agents && w.router.agents[deliveryId].message.None?
    && w.router.agents[deliveryId].expiresAt >= until
    && deliveryId in w.router.commands && w.router.commands[deliveryId] >= until
  }

  lemma BothKnowThroughBrokers(w: World, deliveryId: string, until: int, inbound: Inbound, at: int, reach: Reach)
    requires KnownToBoth(w, deliveryId, until) && at <= until
    ensures var v := w.(router := OfferToBrokers(w.router, inbound, at, reach).router);
      KnownToBoth(v, deliveryId, until) && SameDelivery(w, v, deliveryId)
  {
    var first := w.(router := DispatchCommand(w.router, inbound, at, reach.legacy).router);
    assert KnownToBoth(first, deliveryId, until) && SameDelivery(w, first, deliveryId);
    BothKnowThroughAgents(w, deliveryId, until, inbound, at, reach);
    BothKnowThroughAgents(first, deliveryId, until, inbound, at, reach);
    hide DispatchCommand, DispatchAgent, KnownToBoth;
  }

  lemma BothKnowThroughAgents(w: World, deliveryId: string, until: int, inbound: Inbound, at: int, reach: Reach)
    requires KnownToBoth(w, deliveryId, until) && at <= until
    ensures var v := w.(router := DispatchAgent(w.router, inbound, at, reach.agent, reach.conflict).router);
      KnownToBoth(v, deliveryId, until) && SameDelivery(w, v, deliveryId)
  {
  }

  lemma BothKnowThroughArrival(w: World, deliveryId: string, until: int, inbound: Inbound, at: int, reach: Reach,
                               sendTimeout: int)
    requires KnownToBoth(w, deliveryId, until) && at <= until
    ensures var v := Step(w, Arrives(inbound, at, reach), sendTimeout);
      KnownToBoth(v, deliveryId, until) && SameDelivery(w, v, deliveryId)
  {
    hide OfferToBrokers, Live, Known;
    BothKnowThroughBrokers(w.(router := PruneRoutes(w.router, at)), deliveryId, until, inbound, at, reach);
  }

  lemma BothKnowThroughStart(w: World, deliveryId: string, until: int, other: string, provider: string,
                             appAllowed: bool, at: int, sendTimeout: int)
    requires KnownToBoth(w, deliveryId, until) && at <= until
    ensures var v := Step(w, Starts(other, provider, appAllowed, at), sendTimeout);
      KnownToBoth(v, deliveryId, until) && SameDelivery(w, v, deliveryId)
  {
  }

  lemma KnownToBothStep(w: World, deliveryId: string, until: int, e: Event, sendTimeout: int)
    requires KnownToBoth(w, deliveryId, until) && e.at <= until
    ensures KnownToBoth(Step(w, e, sendTimeout), deliveryId, until)
    ensures SameDelivery(w, Step(w, e, sendTimeout), deliveryId)
  {
    hide Dispatch, Pin;
    match e
    case Arrives(inbound, at, reach) => BothKnowThroughArrival(w, deliveryId, until, inbound, at, reach, sendTimeout);
    case Starts(other, provider, appAllowed, at) =>
      BothKnowThroughStart(w, deliveryId, until, other, provider, appAllowed, at, sendTimeout);
    case Prunes(at) =>
  }

  lemma KnownToBothIsSafe(w: World, deliveryId: string, until: int, sendTimeout: int)
    requires KnownToBoth(w, deliveryId, until) && w.clock <= until
    ensures RetryIsSafe(w, deliveryId, sendTimeout)
  {
  }

  lemma {:induction false} NothingIsReroutedWhileBothKnowIt(w: World, deliveryId: string, until: int,
                                                            events: seq<Event>, sendTimeout: int)
    requires KnownToBoth(w, deliveryId, until)
    requires Timely(w, events, sendTimeout) && Run(w, events, sendTimeout).clock <= until
    ensures RetryIsSafe(Run(w, events, sendTimeout), deliveryId, sendTimeout)
    decreases |events|
  {
    if events == [] {
      KnownToBothIsSafe(w, deliveryId, until, sendTimeout);
    } else {
      hide KnownToBoth, RetryIsSafe, Step;
      ClockMovesOn(Step(w, events[0], sendTimeout), events[1..], sendTimeout);
      StepTime(w, events[0], sendTimeout);
      KnownToBothStep(w, deliveryId, until, events[0], sendTimeout);
      NothingIsReroutedWhileBothKnowIt(Step(w, events[0], sendTimeout), deliveryId, until, events[1..], sendTimeout);
    }
  }

  /** An id no table knows. */
  lemma AnotherId(ids: set<string>, longest: nat) returns (id: string)
    requires forall x :: x in ids ==> |x| <= longest
    ensures id !in ids
  {
    id := seq(longest + 1, _ => 'x');
  }

  lemma {:induction false} LongestId(ids: set<string>) returns (longest: nat)
    ensures forall x :: x in ids ==> |x| <= longest
  {
    if ids == {} {
      longest := 0;
    } else {
      var x :| x in ids;
      var rest := LongestId(ids - {x});
      longest := if |x| < rest then rest else |x|;
    }
  }

  /** The event of a delivery under its own id and, if it has a message, under an id nobody has seen. */
  lemma CopyOf(w: World, deliveryId: string) returns (copy: Inbound)
    requires deliveryId in w.router.agents
    ensures IsEventOf(copy, deliveryId, w.router.agents[deliveryId]) && !copy.agentOnly
    ensures w.router.agents[deliveryId].message.None? ==> copy == Inbound(deliveryId, None, false)
    ensures w.router.agents[deliveryId].message.Some? ==>
      copy.message == w.router.agents[deliveryId].message
      && copy.deliveryId !in w.router.deliveries && copy.deliveryId !in w.router.commands
  {
    if w.router.agents[deliveryId].message.None? {
      copy := Inbound(deliveryId, None, false);
    } else {
      var ids := w.router.deliveries.Keys + w.router.commands.Keys;
      var longest := LongestId(ids);
      var id := AnotherId(ids, longest);
      copy := Inbound(id, w.router.agents[deliveryId].message, false);
    }
  }

  const CONSUMER := Principal("consumer", false)

  /**
    What a retry meets at `now`, past the pin, if nothing but time has passed. The delivery is
    found exactly as long as the lifetime it got when it arrived; whether it is or not, the
    registry has forgotten the event, and a legacy consumer that is up gets the next copy of it,
    unless the legacy broker itself had the event before and still knows it.
  */
  lemma PastThePin(w: World, deliveryId: string, provider: string, pinnedAt: int, now: int, sendTimeout: int)
    requires w.clock <= pinnedAt && sendTimeout >= 0 && PinUntil(pinnedAt, sendTimeout) < now
    requires Pin(w.router, deliveryId, provider, true, pinnedAt, PinUntil(pinnedAt, sendTimeout)).found
    ensures var v := Run(Started(w, deliveryId, provider, pinnedAt, sendTimeout), [Prunes(now)], sendTimeout);
      && Timely(Started(w, deliveryId, provider, pinnedAt, sendTimeout), [Prunes(now)], sendTimeout)
      && v.clock == now
      && (Pin(v.router, deliveryId, provider, true, now, PinUntil(now, sendTimeout)).found
          <==> now <= w.router.agents[deliveryId].expiresAt)
      && (Dispatch(v.router, Inbound(deliveryId, None, false), now, Reach({CONSUMER}, {}, false)).legacy == 1
          <==> !(deliveryId in w.router.commands && now <= w.router.commands[deliveryId]))
  {
    var s := Started(w, deliveryId, provider, pinnedAt, sendTimeout);
    var v := Step(s, Prunes(now), sendTimeout);
    assert [Prunes(now)][1..] == [] && Run(s, [Prunes(now)], sendTimeout) == Run(v, [], sendTimeout);
    assert Timely(v, [], sendTimeout);
    assert s.router.deliveries[deliveryId] == PinUntil(pinnedAt, sendTimeout);
    assert deliveryId !in PruneRoutes(v.router, now).deliveries;
    assert deliveryId in v.router.agents <==> now <= w.router.agents[deliveryId].expiresAt;
  }

  /** Past the pin a legal retry is not safe: the delivery is gone, or a copy of its event is handed on. */
  lemma LateRetryIsNotSafe(w: World, deliveryId: string, provider: string, pinnedAt: int, now: int, sendTimeout: int)
    requires w.clock <= pinnedAt && sendTimeout >= 0 && PinUntil(pinnedAt, sendTimeout) < now
    requires Pin(w.router, deliveryId, provider, true, pinnedAt, PinUntil(pinnedAt, sendTimeout)).found
    requires !KnownToBoth(w, deliveryId, now)
    ensures var v := Run(Started(w, deliveryId, provider, pinnedAt, sendTimeout), [Prunes(now)], sendTimeout);
      !RetryIsSafe(v, deliveryId, sendTimeout)
  {
    var s := Started(w, deliveryId, provider, pinnedAt, sendTimeout);
    var v := Step(s, Prunes(now), sendTimeout);
    assert [Prunes(now)][1..] == [] && Run(s, [Prunes(now)], sendTimeout) == Run(v, [], sendTimeout);
    if deliveryId in v.router.agents {
      var copy := CopyOf(v, deliveryId);
      assert !Known(PruneRoutes(v.router, now), copy);
      assert copy.deliveryId !in PruneCommands(PruneRoutes(v.router, now), now).commands;
      assert Dispatch(v.router, copy, now, Reach({CONSUMER}, {}, false)).legacy == 1;
    }
  }

  /**
    From any state, for any lifetime and over every run after the pin: a legal retry of a send
    finds its delivery, and its event goes to nobody, iff the send began at most two send timeouts
    and a millisecond after the pin; or else, the event being without a message, both brokers know
    it till the last legal retry. Starts that wait for each other can begin later than that.
  */
  lemma LegalRetryIsSafeIff(w: World, deliveryId: string, provider: string, pinnedAt: int, ambiguousAt: int,
                            sendTimeout: int)
    requires Inv(w) && w.clock <= pinnedAt <= ambiguousAt && 0 <= sendTimeout < WINDOW
    requires Pin(w.router, deliveryId, provider, true, pinnedAt, PinUntil(pinnedAt, sendTimeout)).found
    ensures var v := Started(w, deliveryId, provider, pinnedAt, sendTimeout);
      (forall events ::
         Timely(v, events, sendTimeout) && LegalRetry(Run(v, events, sendTimeout).clock, sendTimeout, ambiguousAt) ==>
         RetryIsSafe(Run(v, events, sendTimeout), deliveryId, sendTimeout))
      <==> (ambiguousAt <= pinnedAt + 2 * sendTimeout + 1
            || KnownToBoth(w, deliveryId, LastRetry(ambiguousAt, sendTimeout)))
  {
    var v, last := Started(w, deliveryId, provider, pinnedAt, sendTimeout), LastRetry(ambiguousAt, sendTimeout);
    hide Inv, Step, Pin, RetryIsSafe, KnownToBoth;
    if ambiguousAt <= pinnedAt + 2 * sendTimeout + 1 {
      forall events
        | Timely(v, events, sendTimeout) && LegalRetry(Run(v, events, sendTimeout).clock, sendTimeout, ambiguousAt)
        ensures RetryIsSafe(Run(v, events, sendTimeout), deliveryId, sendTimeout)
      {
        NothingIsReroutedWhileARetryIsLegal(w, deliveryId, provider, pinnedAt, ambiguousAt, events, sendTimeout);
      }
    } else if KnownToBoth(w, deliveryId, last) {
      KnownToBothStep(w, deliveryId, last, Starts(deliveryId, provider, true, pinnedAt), sendTimeout);
      forall events
        | Timely(v, events, sendTimeout) && LegalRetry(Run(v, events, sendTimeout).clock, sendTimeout, ambiguousAt)
        ensures RetryIsSafe(Run(v, events, sendTimeout), deliveryId, sendTimeout)
      {
        NothingIsReroutedWhileBothKnowIt(v, deliveryId, last, events, sendTimeout);
      }
    } else {
      PastThePin(w, deliveryId, provider, pinnedAt, last, sendTimeout);
      LateRetryIsNotSafe(w, deliveryId, provider, pinnedAt, last, sendTimeout);
      assert LegalRetry(last, sendTimeout, ambiguousAt);
    }
  }

  const QUESTION := Inbound("d1", None, false)
  const AGENT := Principal("agent", false)

  /** Delivered to one agent, and pinned by its start at once. */
  function Asked(ttl: int, sendTimeout: int): World {
    Started(Step(Idle(ttl, 0), Arrives(QUESTION, 0, Reach({}, {AGENT}, false)), sendTimeout), "d1", "agent", 0,
            sendTimeout)
  }

  lemma AskedWorld(ttl: int, sendTimeout: int)
    requires ttl >= 0 && sendTimeout >= 0
    ensures var until := PinUntil(0, sendTimeout); var kept := if ttl < until then until else ttl;
      Asked(ttl, sendTimeout) ==
      World(Router(ttl, map["d1" := until], map[], map[], map["d1" := AgentEntry(kept, None, {AGENT})], map[]),
            [Handing("d1", None, false, 0)], map["d1" := until], map[], 0)
    ensures Inv(Asked(ttl, sendTimeout))
    ensures var e := [Arrives(QUESTION, 0, Reach({}, {AGENT}, false)), Starts("d1", "agent", true, 0)];
      Timely(Idle(ttl, 0), e, sendTimeout) && Run(Idle(ttl, 0), e, sendTimeout) == Asked(ttl, sendTimeout)
  {
    var w0 := Idle(ttl, 0);
    var a, s := Arrives(QUESTION, 0, Reach({}, {AGENT}, false)), Starts("d1", "agent", true, 0);
    var w1 := Step(w0, a, sendTimeout);
    assert w1.router.agents == map["d1" := AgentEntry(ttl, None, {AGENT})]
      && w1.handed == [Handing("d1", None, false, 0)];
    var w2 := Step(w1, s, sendTimeout);
    assert [a, s][1..] == [s] && [s][1..] == [];
    assert Run(w1, [s], sendTimeout) == Run(w2, [], sendTimeout) && Timely(w1, [s], sendTimeout);
    assert w2.router.deliveries == map["d1" := PinUntil(0, sendTimeout)];
  }

  /**
    Concrete runs, for every lifetime configuration allows: the send begins later than two send
    timeouts and a millisecond after its pin and is ambiguous. At any legal retry past the pin a
    legacy consumer gets the event; the delivery is gone as well if its lifetime is over by then.
  */
  lemma LateRetryFromIdle(ttl: int, sendTimeout: int, ambiguousAt: int, now: int)
    requires 0 <= sendTimeout < WINDOW && ttl >= 0 && 2 * sendTimeout + 1 < ambiguousAt
    requires WINDOW + sendTimeout < now && LegalRetry(now, sendTimeout, ambiguousAt)
    ensures var v := Run(Asked(ttl, sendTimeout), [Prunes(now)], sendTimeout);
      && Timely(Asked(ttl, sendTimeout), [Prunes(now)], sendTimeout) && v.clock == now
      && (Pin(v.router, "d1", "agent", true, now, PinUntil(now, sendTimeout)).found <==> now <= ttl)
      && Dispatch(v.router, QUESTION, now, Reach({CONSUMER}, {}, false)).legacy == 1
      && !RetryIsSafe(v, "d1", sendTimeout)
  {
    var w := Step(Idle(ttl, 0), Arrives(QUESTION, 0, Reach({}, {AGENT}, false)), sendTimeout);
    assert w.router.agents == map["d1" := AgentEntry(ttl, None, {AGENT})];
    assert w.router.commands == map[] && w.clock == 0;
    PastThePin(w, "d1", "agent", 0, now, sendTimeout);
    LateRetryIsNotSafe(w, "d1", "agent", 0, now, sendTimeout);
  }

  // ---------------------------------------------------------------- how long a route is sticky

  /**
    What a start attempt does to the stickiness of its event. Before the old registry entry ends,
    and while the agent broker still knows the delivery, a redelivery reaches somebody exactly
    when the rewritten entry has ended, the event may go to legacy consumers, and there is one.
  */
  lemma PinnedEventIsHandedOnIff(w: World, deliveryId: string, provider: string, at: int, sendTimeout: int,
                                 inbound: Inbound, t: int, reach: Reach)
    requires Pin(w.router, deliveryId, provider, true, at, PinUntil(at, sendTimeout)).found
    requires at <= t <= w.router.agents[deliveryId].expiresAt
    requires inbound.deliveryId == deliveryId && inbound.message == w.router.agents[deliveryId].message
    ensures var v := Started(w, deliveryId, provider, at, sendTimeout);
      var out := Dispatch(v.router, inbound, t, reach);
      out.legacy + out.agent > 0 <==>
        && PinUntil(at, sendTimeout) < t && !inbound.agentOnly && reach.legacy != {}
        && !(deliveryId in v.router.commands && t <= v.router.commands[deliveryId])
  {
    var v := Started(w, deliveryId, provider, at, sendTimeout);
    PinWritesTheRegistry(w.router, deliveryId, provider, true, at, PinUntil(at, sendTimeout));
    AgentsOutliveThePin(w, deliveryId, provider, at, sendTimeout, t);
    var p := PruneRoutes(v.router, t);
    assert Known(p, inbound) <==> t <= PinUntil(at, sendTimeout);
    if !Known(p, inbound) {
      BrokersThatKnowIt(p, inbound, t, reach);
    }
    hide OfferToBrokers, Pin, Known;
  }

  lemma AgentsOutliveThePin(w: World, deliveryId: string, provider: string, at: int, sendTimeout: int, t: int)
    requires Pin(w.router, deliveryId, provider, true, at, PinUntil(at, sendTimeout)).found
    requires at <= t <= w.router.agents[deliveryId].expiresAt
    ensures var v := Started(w, deliveryId, provider, at, sendTimeout);
      deliveryId in v.router.agents && t <= v.router.agents[deliveryId].expiresAt
  {
  }

  /** The agent broker keeps an event it knows to itself; the legacy broker does not. */
  lemma BrokersThatKnowIt(p: Router, inbound: Inbound, t: int, reach: Reach)
    requires inbound.deliveryId in p.agents && t <= p.agents[inbound.deliveryId].expiresAt
    ensures var out := OfferToBrokers(p, inbound, t, reach);
      out.legacy + out.agent > 0 <==>
        !inbound.agentOnly && reach.legacy != {}
        && !(inbound.deliveryId in p.commands && t <= p.commands[inbound.deliveryId])
  {
    assert reach.legacy != {} ==> |reach.legacy| > 0;
  }

  /**
    The first route is sticky for the dedupe lifetime, over every run and to whichever broker,
    iff that lifetime is no longer than the hour and send timeout a start attempt leaves of it.
    Configuration demands at least that much, so only the shortest lifetime keeps the promise.
  */
  lemma RouteIsStickyForTheLifetimeIff(ttl: nat, sendTimeout: nat)
    ensures (forall events ::
               Timely(Idle(ttl, 0), events, sendTimeout) ==> Apart(Run(Idle(ttl, 0), events, sendTimeout), ttl))
            <==> ttl <= WINDOW + sendTimeout
  {
    if ttl <= WINDOW + sendTimeout {
      forall events | Timely(Idle(ttl, 0), events, sendTimeout)
        ensures Apart(Run(Idle(ttl, 0), events, sendTimeout), ttl)
      {
        HandOversLieApart(ttl, 0, events, sendTimeout);
      }
    } else {
      RouteSwitchesWithinTheLifetime(ttl, sendTimeout);
    }
  }

  /** Delivered to an agent, answered at once, then redelivered when the pin has run out and a legacy consumer is up. */
  function Switching(sendTimeout: int): seq<Event> {
    [Arrives(QUESTION, 0, Reach({}, {AGENT}, false)), Starts("d1", "agent", true, 0),
     Arrives(QUESTION, WINDOW + sendTimeout + 1, Reach({CONSUMER}, {AGENT}, false))]
  }

  /** Within any lifetime longer than that the same event reaches an agent and then a legacy consumer. */
  lemma RouteSwitchesWithinTheLifetime(ttl: nat, sendTimeout: nat)
    requires ttl > WINDOW + sendTimeout
    ensures Timely(Idle(ttl, 0), Switching(sendTimeout), sendTimeout)
    ensures var v := Run(Idle(ttl, 0), Switching(sendTimeout), sendTimeout);
      v.handed == [Handing("d1", None, false, 0), Handing("d1", None, true, WINDOW + sendTimeout + 1)] && !Apart(v, ttl)
  {
    var again := WINDOW + sendTimeout + 1;
    var e := Switching(sendTimeout);
    var w0, w2 := Idle(ttl, 0), Asked(ttl, sendTimeout);
    AskedWorld(ttl, sendTimeout);
    var w3 := Step(w2, e[2], sendTimeout);
    assert PruneRoutes(w2.router, again).deliveries == map[];
    assert w3.handed == [Handing("d1", None, false, 0), Handing("d1", None, true, again)];
    assert SameEvent(w3.handed[0], w3.handed[1]);
    hide Step;
    assert e[1..][1..] == [e[2]] && [e[2]][1..] == [];
    assert Run(w2, [e[2]], sendTimeout) == Run(w3, [], sendTimeout) && Timely(w2, [e[2]], sendTimeout);
  }
}
