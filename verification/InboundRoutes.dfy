/** The route registry and both brokers as the daemon updates them in place. */
module InboundRoutes {
  import opened Options
  import opened MessageWindow
  import opened InboundRouting
  import opened FanOut

  /** Deletes what has expired, visiting the entries in no particular order. */
  method PruneExpired<K(==)>(entries: map<K, int>, now: int) returns (left: map<K, int>)
    ensures left == Live(entries, now)
  {
    left := entries;
    var unseen := entries.Keys;
    while unseen != {}
      invariant unseen <= entries.Keys
      invariant left.Keys <= entries.Keys && forall k :: k in left ==> left[k] == entries[k]
      invariant forall k :: k in entries ==> (k in left <==> k in unseen || now <= entries[k])
      decreases unseen
    {
      var k :| k in unseen;
      unseen := unseen - {k};
      if now > entries[k] { left := left - {k}; }
    }
  }

  method PruneAgentDeliveries(entries: map<string, AgentEntry>, now: int) returns (left: map<string, AgentEntry>)
    ensures left == LiveAgents(entries, now)
  {
    left := entries;
    var unseen := entries.Keys;
    while unseen != {}
      invariant unseen <= entries.Keys
      invariant left.Keys <= entries.Keys && forall k :: k in left ==> left[k] == entries[k]
      invariant forall k :: k in entries ==> (k in left <==> k in unseen || now <= entries[k].expiresAt)
      decreases unseen
    {
      var k :| k in unseen;
      unseen := unseen - {k};
      if now > entries[k].expiresAt { left := left - {k}; }
    }
  }

  class InboundRouter {
    const ttl: int
    // the registry
    var deliveries: map<string, int>
    var messages: map<MessageKey, int>
    // the legacy command broker
    var commands: map<string, int>
    var commandSubs: Subscribers
    var commandQueues: Queues
    // the agent broker
    var agents: map<string, AgentEntry>
    var seen: map<MessageKey, int>
    var agentSubs: Subscribers
    var agentQueues: Queues

    constructor (ttl: int)
      ensures State() == Idle(ttl, 0).router && Valid() && commandSubs == map[] && agentSubs == map[]
    {
      this.ttl := ttl;
      deliveries, messages, commands, agents, seen := map[], map[], map[], map[], map[];
      commandSubs, commandQueues, agentSubs, agentQueues := map[], map[], map[], map[];
    }

    ghost predicate Valid()
      reads this
    {
      && Wired(commandSubs, commandQueues) && Wired(agentSubs, agentQueues)
      && forall id :: id in agentSubs ==> !agentSubs[id].principal.internal
    }

    ghost function State(): Router
      reads this
    {
      Router(ttl, deliveries, messages, commands, agents, seen)
    }

    /** The receivers each broker has for the prompt in this state. */
    ghost function ReachOf(prompt: Prompt, conflict: bool): Reach
      reads this
    {
      Reach(Receivers(commandSubs, commandQueues, CommandCandidates(commandSubs, prompt), COMMAND_BUFFER),
            Receivers(agentSubs, agentQueues, AgentCandidates(agentSubs, prompt), AGENT_BUFFER),
            conflict)
    }

    method SubscribeAgent(id: nat, provider: string, commands: set<string>, unmatched: bool, apps: Option<set<string>>)
      requires Valid() && id !in agentSubs
      modifies this`agentSubs, this`agentQueues
      ensures Valid() && agentQueues == old(agentQueues)[id := []]
      ensures agentSubs == old(agentSubs)[id := Subscriber(Principal(provider, false), commands, unmatched, apps)]
    {
      agentSubs := agentSubs[id := Subscriber(Principal(provider, false), commands, unmatched, apps)];
      agentQueues := agentQueues[id := []];
    }

    method UnsubscribeAgent(id: nat)
      requires Valid()
      modifies this`agentSubs, this`agentQueues
      ensures Valid() && agentSubs == old(agentSubs) - {id} && agentQueues == old(agentQueues) - {id}
    {
      agentSubs, agentQueues := agentSubs - {id}, agentQueues - {id};
    }

    method DispatchToCommands(inbound: Inbound, prompt: Prompt, now: int)
      returns (delivered: nat, handled: bool, ghost winners: map<Principal, nat>)
      requires Valid()
      modifies this`commands, this`commandQueues
      ensures var out := DispatchCommand(old(State()), inbound, now, old(ReachOf(prompt, false)).legacy);
        State() == out.router && delivered == out.legacy && handled == out.handled
      ensures Valid()
      ensures HandedOut(commandSubs, old(commandQueues), commandQueues, CommandCandidates(commandSubs, prompt),
                        COMMAND_BUFFER, prompt, delivered, winners)
    {
      hide Elected, Extended, CommandCandidates, Receivers, Live;
      commands := PruneExpired(commands, now);
      if inbound.deliveryId in commands { return 0, true, map[]; }
      var queues, allowed;
      queues, allowed, delivered, winners := OfferToCommands(commandSubs, commandQueues, prompt);
      if delivered > 0 {
        commandQueues := queues;
        commands := commands[inbound.deliveryId := now + ttl];
      }
      handled := delivered > 0;
    }

    method DispatchToAgents(inbound: Inbound, prompt: Prompt, now: int, conflict: bool)
      returns (delivered: nat, handled: bool, ghost winners: map<Principal, nat>)
      requires Valid()
      modifies this`agents, this`seen, this`agentQueues
      ensures var out := DispatchAgent(old(State()), inbound, now, old(ReachOf(prompt, conflict)).agent, conflict);
        State() == out.router && delivered == out.agent && handled == out.handled
      ensures Valid()
      ensures HandedOut(agentSubs, old(agentQueues), agentQueues, AgentCandidates(agentSubs, prompt), AGENT_BUFFER,
                        prompt, delivered, winners)
    {
      hide Elected, Extended, AgentCandidates, Receivers, Live, LiveAgents;
      agents := PruneAgentDeliveries(agents, now);
      seen := PruneExpired(seen, now);
      if inbound.deliveryId in agents { return 0, true, map[]; }
      if inbound.message.Some? && inbound.message.value in seen { return 0, true, map[]; }
      if conflict { return 0, true, map[]; }
      var queues, allowed;
      queues, allowed, delivered, winners := OfferToAgents(agentSubs, agentQueues, prompt);
      if delivered > 0 {
        agentQueues := queues;
        agents := agents[inbound.deliveryId := AgentEntry(now + ttl, inbound.message, allowed)];
        if inbound.message.Some? { seen := seen[inbound.message.value := now + ttl]; }
      }
      handled := delivered > 0;
    }

    /** The legacy broker, unless the event is for agents only, and the agent broker if that did not handle it. */
    method HandToBrokers(inbound: Inbound, prompt: Prompt, now: int, conflict: bool)
      returns (legacy: nat, agent: nat, handled: bool,
               ghost commandWinners: map<Principal, nat>, ghost agentWinners: map<Principal, nat>)
      requires Valid()
      modifies this`commands, this`commandQueues, this`agents, this`seen, this`agentQueues
      ensures var out := OfferToBrokers(old(State()), inbound, now, old(ReachOf(prompt, conflict)));
        State() == out.router && legacy == out.legacy && agent == out.agent && handled == out.handled
      ensures Valid()
      ensures HandedOut(commandSubs, old(commandQueues), commandQueues, CommandCandidates(commandSubs, prompt),
                        COMMAND_BUFFER, prompt, legacy, commandWinners)
      ensures HandedOut(agentSubs, old(agentQueues), agentQueues, AgentCandidates(agentSubs, prompt), AGENT_BUFFER,
                        prompt, agent, agentWinners)
    {
      hide HandedOut, CommandCandidates, AgentCandidates, Receivers, DispatchCommand, DispatchAgent;
      NothingHandedOut(commandSubs, commandQueues, CommandCandidates(commandSubs, prompt), COMMAND_BUFFER, prompt);
      NothingHandedOut(agentSubs, agentQueues, AgentCandidates(agentSubs, prompt), AGENT_BUFFER, prompt);
      legacy, agent, handled, commandWinners, agentWinners := 0, 0, false, map[], map[];
      if !inbound.agentOnly {
        legacy, handled, commandWinners := DispatchToCommands(inbound, prompt, now);
      }
      if !handled {
        agent, handled, agentWinners := DispatchToAgents(inbound, prompt, now, conflict);
      }
    }

    /** Drops the expired registry entries and looks the event up among the others. */
    method IsKnown(inbound: Inbound, now: int) returns (known: bool)
      modifies this`deliveries, this`messages
      ensures State() == PruneRoutes(old(State()), now) && known == Known(State(), inbound)
    {
      deliveries := PruneExpired(deliveries, now);
      messages := PruneExpired(messages, now);
      return inbound.deliveryId in deliveries || (inbound.message.Some? && inbound.message.value in messages);
    }

    method RememberRoute(inbound: Inbound, now: int)
      modifies this`deliveries, this`messages
      ensures State() == Register(old(State()), inbound, now)
    {
      deliveries := deliveries[inbound.deliveryId := now + ttl];
      if inbound.message.Some? { messages := messages[inbound.message.value := now + ttl]; }
    }

    /** Registry check, hand-over, registry entry. */
    method DispatchInboundRoute(inbound: Inbound, prompt: Prompt, now: int, conflict: bool)
      returns (legacy: nat, agent: nat,
               ghost commandWinners: map<Principal, nat>, ghost agentWinners: map<Principal, nat>)
      requires Valid()
      modifies this
      ensures var out := Dispatch(old(State()), inbound, now, old(ReachOf(prompt, conflict)));
        State() == out.router && legacy == out.legacy && agent == out.agent
      ensures Valid() && commandSubs == old(commandSubs) && agentSubs == old(agentSubs)
      ensures HandedOut(commandSubs, old(commandQueues), commandQueues, CommandCandidates(commandSubs, prompt),
                        COMMAND_BUFFER, prompt, legacy, commandWinners)
      ensures HandedOut(agentSubs, old(agentQueues), agentQueues, AgentCandidates(agentSubs, prompt), AGENT_BUFFER,
                        prompt, agent, agentWinners)
    {
      hide HandedOut, CommandCandidates, AgentCandidates, Receivers, OfferToBrokers, Live;
      NothingHandedOut(commandSubs, commandQueues, CommandCandidates(commandSubs, prompt), COMMAND_BUFFER, prompt);
      NothingHandedOut(agentSubs, agentQueues, AgentCandidates(agentSubs, prompt), AGENT_BUFFER, prompt);
      legacy, agent, commandWinners, agentWinners := 0, 0, map[], map[];
      var known := IsKnown(inbound, now);
      if known { return; }
      hide PruneRoutes, Known, Register;
      var handled;
      legacy, agent, handled, commandWinners, agentWinners := HandToBrokers(inbound, prompt, now, conflict);
      if handled { RememberRoute(inbound, now); }
    }

    /** Finds the delivery of a start attempt and keeps it, with everything that blocks its event, until `until`. */
    method LookupAndPinAgentDelivery(deliveryId: string, provider: string, appAllowed: bool, now: int, until: int)
      returns (found: bool)
      modifies this`deliveries, this`messages, this`agents, this`seen
      ensures var out := Pin(old(State()), deliveryId, provider, appAllowed, now, until);
        State() == out.router && found == out.found
    {
      deliveries := PruneExpired(deliveries, now);
      messages := PruneExpired(messages, now);
      agents := PruneAgentDeliveries(agents, now);
      seen := PruneExpired(seen, now);
      assert State() == PruneAgents(PruneRoutes(old(State()), now), now);
      hide PruneAgents, PruneRoutes;
      if deliveryId !in agents { return false; }
      var entry := agents[deliveryId];
      if Principal(provider, false) !in entry.receivers || !appAllowed { return false; }
      if entry.expiresAt < until { agents := agents[deliveryId := entry.(expiresAt := until)]; }
      if entry.message.Some? && (entry.message.value !in seen || seen[entry.message.value] < until) {
        seen := seen[entry.message.value := until];
      }
      deliveries := deliveries[deliveryId := until];
      if entry.message.Some? { messages := messages[entry.message.value := until]; }
      return true;
    }
  }
}
