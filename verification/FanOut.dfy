/**
  Which subscriptions an inbound message is offered to, and what offering it does to their
  bounded queues. Subscriptions are keyed by id and visited in no particular order.
*/
module FanOut {
  import opened Options

  const COMMAND_BUFFER := 32
  const AGENT_BUFFER := 64

  /** Who a subscription belongs to; in-process consumers are a separate principal of the same name. */
  datatype Principal = Principal(provider: string, internal: bool)

  /** `apps` is None when no allowlist is configured. */
  datatype Subscriber = Subscriber(principal: Principal, commands: set<string>, unmatched: bool,
                                   apps: Option<set<string>>) {
    predicate AllowsApp(app: string) { apps.Some? ==> app in apps.value }
  }

  /** `pinnedTo` names the provider that wrote the parent message, or is empty. */
  datatype Prompt = Prompt(app: string, command: string, text: string, pinnedTo: string)

  type Subscribers = map<nat, Subscriber>
  type Queues = map<nat, seq<Prompt>>

  predicate Eligible(sub: Subscriber, prompt: Prompt) {
    (prompt.pinnedTo == "" || sub.principal.provider == prompt.pinnedTo) && sub.AllowsApp(prompt.app)
  }

  function Exact(subs: Subscribers, prompt: Prompt): set<nat> {
    set id | id in subs && Eligible(subs[id], prompt) && prompt.command in subs[id].commands
  }

  function Fallback(subs: Subscribers, prompt: Prompt): set<nat> {
    set id | id in subs && Eligible(subs[id], prompt) && prompt.command !in subs[id].commands && subs[id].unmatched
  }

  /** Agent subscriptions: unmatched messages go to the fallback ones only when nobody allowed matches exactly. */
  function AgentCandidates(subs: Subscribers, prompt: Prompt): set<nat> {
    if Exact(subs, prompt) == {} then Fallback(subs, prompt) else Exact(subs, prompt)
  }

  /** Legacy command subscriptions match exactly or not at all, and know no pinning. */
  function CommandCandidates(subs: Subscribers, prompt: Prompt): set<nat> { Exact(subs, prompt.(pinnedTo := "")) }

  function Receivers(subs: Subscribers, queues: Queues, candidates: set<nat>, capacity: nat): set<Principal> {
    set id | id in candidates && id in subs && id in queues && |queues[id]| < capacity :: subs[id].principal
  }

  ghost predicate Wired(subs: Subscribers, queues: Queues) { subs.Keys == queues.Keys }

  /** For every principal with some candidate queue with room, one such queue. */
  ghost predicate Elected(subs: Subscribers, queues: Queues, candidates: set<nat>, capacity: nat,
                          winners: map<Principal, nat>) {
    && winners.Keys == Receivers(subs, queues, candidates, capacity)
    && (forall p :: p in winners ==> winners[p] in candidates && winners[p] in subs && subs[winners[p]].principal == p)
    && (forall p :: p in winners ==> winners[p] in queues && |queues[winners[p]]| < capacity)
  }

  ghost predicate Wins(subs: Subscribers, winners: map<Principal, nat>, id: nat)
    requires id in subs
  {
    subs[id].principal in winners && winners[subs[id].principal] == id
  }

  /** The winning queues have the prompt behind what they held; the others are as they were. */
  ghost function Extended(subs: Subscribers, queues: Queues, winners: map<Principal, nat>,
                          prompt: Prompt): (after: Queues)
    requires Wired(subs, queues)
    ensures Wired(subs, after)
  {
    map id | id in queues :: if Wins(subs, winners, id) then queues[id] + [prompt] else queues[id]
  }

  /** What a broker leaves in its queues after handing the prompt to `delivered` principals. */
  ghost predicate HandedOut(subs: Subscribers, before: Queues, after: Queues, candidates: set<nat>, capacity: nat,
                            prompt: Prompt, delivered: nat, winners: map<Principal, nat>)
    requires Wired(subs, before)
  {
    if delivered == 0 then after == before
    else
      && Elected(subs, before, candidates, capacity, winners) && delivered == |winners|
      && after == Extended(subs, before, winners, prompt)
  }

  /** The queues of one principal that got the prompt. */
  ghost function Copies(subs: Subscribers, before: Queues, after: Queues, p: Principal): set<nat>
    requires Wired(subs, before) && Wired(subs, after)
  {
    set id | id in before && after[id] != before[id] && subs[id].principal == p
  }

  /**
    Whatever order the subscriptions were visited in, the principals that got the prompt are
    those with some candidate queue with room, and each of them got exactly one copy.
  */
  lemma EachReceiverGetsOneCopy(subs: Subscribers, before: Queues, candidates: set<nat>, capacity: nat,
                                winners: map<Principal, nat>, prompt: Prompt, p: Principal)
    requires Wired(subs, before) && Elected(subs, before, candidates, capacity, winners)
    ensures |Copies(subs, before, Extended(subs, before, winners, prompt), p)| ==
            if p in Receivers(subs, before, candidates, capacity) then 1 else 0
  {
    var after := Extended(subs, before, winners, prompt);
    var copies := Copies(subs, before, after, p);
    assert p in winners <==> p in Receivers(subs, before, candidates, capacity);
    if p in winners {
      assert after[winners[p]] == before[winners[p]] + [prompt];
      assert copies == {winners[p]};
    } else {
      assert copies == {};
    }
  }

  /** One allowed exact match, even with a full queue, keeps the prompt from every subscription that does not match. */
  lemma ExactMatchSuppressesFallback(subs: Subscribers, before: Queues, winners: map<Principal, nat>, prompt: Prompt,
                                     exact: nat, other: nat)
    requires Wired(subs, before) && Elected(subs, before, AgentCandidates(subs, prompt), AGENT_BUFFER, winners)
    requires exact in subs && Eligible(subs[exact], prompt) && prompt.command in subs[exact].commands
    requires other in subs && prompt.command !in subs[other].commands
    ensures Extended(subs, before, winners, prompt)[other] == before[other]
    ensures Exact(subs, prompt) == {exact} && |before[exact]| >= AGENT_BUFFER ==>
              Extended(subs, before, winners, prompt) == before
  {
    assert exact in Exact(subs, prompt);
  }

  /** A subscription its app allowlist or the pin rules out neither receives nor suppresses anything. */
  lemma IneligibleSubscribersDoNotMatter(subs: Subscribers, prompt: Prompt)
    ensures AgentCandidates(subs, prompt) ==
            AgentCandidates(map id | id in subs && Eligible(subs[id], prompt) :: subs[id], prompt)
  {
    var eligible: Subscribers := map id | id in subs && Eligible(subs[id], prompt) :: subs[id];
    assert Exact(eligible, prompt) == Exact(subs, prompt);
    assert Fallback(eligible, prompt) == Fallback(subs, prompt);
  }

  // ---------------------------------------------------------------- who gets a message

  /** What offering a prompt to the agent subscriptions leaves in their queues. */
  ghost predicate OfferedToAgents(subs: Subscribers, before: Queues, after: Queues, prompt: Prompt, delivered: nat,
                                  winners: map<Principal, nat>)
    requires Wired(subs, before)
  {
    && HandedOut(subs, before, after, AgentCandidates(subs, prompt), AGENT_BUFFER, prompt, delivered, winners)
    && delivered == |Receivers(subs, before, AgentCandidates(subs, prompt), AGENT_BUFFER)|
  }

  /**
    A queue that changed got one copy at its end and had room for it among its 64 places. Its
    subscription is of the provider the message is a reply to, if it is a reply to one; its
    allowlist, if it has one, names the message's application; and it takes the command or
    unmatched messages.
  */
  lemma OnlyEntitledAgentsReceive(subs: Subscribers, before: Queues, after: Queues, prompt: Prompt, delivered: nat,
                                  winners: map<Principal, nat>, id: nat)
    requires Wired(subs, before) && OfferedToAgents(subs, before, after, prompt, delivered, winners)
    requires id in before
    ensures id in after
    ensures after[id] != before[id] ==>
      && after[id] == before[id] + [prompt] && |before[id]| < 64
      && (prompt.pinnedTo == "" || subs[id].principal.provider == prompt.pinnedTo)
      && (subs[id].apps == None || prompt.app in subs[id].apps.value)
      && (prompt.command in subs[id].commands || subs[id].unmatched)
  {
  }

  /** One queue of the principal of this subscription, and no more, has the prompt. */
  ghost predicate GotOneCopy(subs: Subscribers, before: Queues, after: Queues, prompt: Prompt, p: Principal) {
    exists one :: one in subs && one in before && one in after && subs[one].principal == p
      && after[one] == before[one] + [prompt]
      && forall id :: id in before && id in subs && id in after && subs[id].principal == p && id != one ==>
           after[id] == before[id]
  }

  lemma ReceiverGotOneCopy(subs: Subscribers, before: Queues, after: Queues, prompt: Prompt, candidates: set<nat>,
                           capacity: nat, delivered: nat, winners: map<Principal, nat>, p: Principal)
    requires Wired(subs, before) && HandedOut(subs, before, after, candidates, capacity, prompt, delivered, winners)
    requires delivered == |Receivers(subs, before, candidates, capacity)|
    requires p in Receivers(subs, before, candidates, capacity)
    ensures GotOneCopy(subs, before, after, prompt, p)
  {
    assert delivered > 0;
    var one := winners[p];
    assert after[one] == before[one] + [prompt];
  }

  /** The principals counted as receivers, who alone may start a response, are those that got a copy. */
  lemma ReceiversGotTheCopies(subs: Subscribers, before: Queues, after: Queues, prompt: Prompt, candidates: set<nat>,
                              capacity: nat, delivered: nat, winners: map<Principal, nat>, p: Principal)
    requires Wired(subs, before) && HandedOut(subs, before, after, candidates, capacity, prompt, delivered, winners)
    requires delivered == |Receivers(subs, before, candidates, capacity)|
    ensures p in Receivers(subs, before, candidates, capacity) <==> GotOneCopy(subs, before, after, prompt, p)
  {
    if p in Receivers(subs, before, candidates, capacity) {
      ReceiverGotOneCopy(subs, before, after, prompt, candidates, capacity, delivered, winners, p);
    }
  }

  /**
    A subscription with room whose provider and allowlist admit the message receives it, once for
    its provider, if it takes the command; and likewise if it takes unmatched messages and no
    other admitted one takes the command. A match that the pin or its own allowlist rules out
    keeps nothing from anybody; an admitted one, even with a full queue, keeps the message from
    every subscription that does not take the command.
  */
  lemma EveryEntitledAgentReceives(subs: Subscribers, before: Queues, after: Queues, prompt: Prompt, delivered: nat,
                                   winners: map<Principal, nat>, id: nat)
    requires Wired(subs, before) && OfferedToAgents(subs, before, after, prompt, delivered, winners) && id in subs
    requires prompt.pinnedTo == "" || subs[id].principal.provider == prompt.pinnedTo
    requires subs[id].apps == None || prompt.app in subs[id].apps.value
    ensures var matched := (exists other :: (
                other in subs && prompt.command in subs[other].commands
                && (prompt.pinnedTo == "" || subs[other].principal.provider == prompt.pinnedTo)
                && (subs[other].apps == None || prompt.app in subs[other].apps.value)));
      && (prompt.command in subs[id].commands && |before[id]| < 64 ==>
            GotOneCopy(subs, before, after, prompt, subs[id].principal))
      && (subs[id].unmatched && !matched && |before[id]| < 64 ==>
            GotOneCopy(subs, before, after, prompt, subs[id].principal))
      && (matched && prompt.command !in subs[id].commands ==> id in after && after[id] == before[id])
  {
    var candidates := AgentCandidates(subs, prompt);
    if id in candidates && |before[id]| < 64 {
      assert subs[id].principal in Receivers(subs, before, candidates, AGENT_BUFFER);
      ReceiverGotOneCopy(subs, before, after, prompt, candidates, AGENT_BUFFER, delivered, winners, subs[id].principal);
    }
    hide GotOneCopy;
    if other :| other in subs && prompt.command in subs[other].commands
                && (prompt.pinnedTo == "" || subs[other].principal.provider == prompt.pinnedTo)
                && (subs[other].apps == None || prompt.app in subs[other].apps.value) {
      assert other in Exact(subs, prompt);
    }
  }

  /**
    The legacy broker offers a prompt to the subscriptions that take its command and whose
    allowlist, if any, names its application, whoever wrote the message before it; each provider
    among them with room in one of its 32 places gets it once, nobody else does.
  */
  lemma CommandsReachExactly(subs: Subscribers, before: Queues, after: Queues, prompt: Prompt, delivered: nat,
                             winners: map<Principal, nat>, id: nat)
    requires Wired(subs, before) && id in subs
    requires HandedOut(subs, before, after, CommandCandidates(subs, prompt), COMMAND_BUFFER, prompt, delivered, winners)
    requires delivered == |Receivers(subs, before, CommandCandidates(subs, prompt), COMMAND_BUFFER)|
    ensures var admitted :=
        prompt.command in subs[id].commands && (subs[id].apps == None || prompt.app in subs[id].apps.value);
      && (admitted && |before[id]| < 32 ==> GotOneCopy(subs, before, after, prompt, subs[id].principal))
      && (!admitted || |before[id]| >= 32 ==> id in after && after[id] == before[id])
  {
    IsCommandCandidate(subs, prompt);
    var candidates := CommandCandidates(subs, prompt);
    if id in candidates && |before[id]| < 32 {
      assert subs[id].principal in Receivers(subs, before, candidates, COMMAND_BUFFER);
      ReceiverGotOneCopy(subs, before, after, prompt, candidates, COMMAND_BUFFER, delivered, winners,
                         subs[id].principal);
    }
    hide GotOneCopy;
  }

  // ---------------------------------------------------------------- the loops

  /** Splits the subscriptions into exact and fallback slices, in whatever order they come. */
  method SelectAgentCandidates(subs: Subscribers, prompt: Prompt) returns (candidates: seq<nat>)
    ensures forall id :: id in candidates <==> id in AgentCandidates(subs, prompt)
    ensures forall id :: id in candidates ==> id in subs
    ensures forall i, j :: 0 <= i < j < |candidates| ==> candidates[i] != candidates[j]
  {
    var exact: seq<nat>, fallback: seq<nat> := [], [];
    var left := subs.Keys;
    while left != {}
      invariant left <= subs.Keys
      invariant forall id :: id in exact <==> id in Exact(subs, prompt) && id !in left
      invariant forall id :: id in fallback <==> id in Fallback(subs, prompt) && id !in left
      invariant forall i, j :: 0 <= i < j < |exact| ==> exact[i] != exact[j]
      invariant forall i, j :: 0 <= i < j < |fallback| ==> fallback[i] != fallback[j]
      decreases left
    {
      var id :| id in left;
      assert id !in exact && id !in fallback;
      left := left - {id};
      var sub := subs[id];
      if prompt.pinnedTo != "" && sub.principal.provider != prompt.pinnedTo { continue; }
      if !sub.AllowsApp(prompt.app) { continue; }
      if prompt.command in sub.commands {
        exact := exact + [id];
        continue;
      }
      if sub.unmatched { fallback := fallback + [id]; }
    }
    candidates := if |exact| == 0 then fallback else exact;
    assert exact != [] ==> exact[0] in exact;
  }

  lemma ReceiversOfMore(subs: Subscribers, queues: Queues, done: set<nat>, id: nat, capacity: nat)
    requires Wired(subs, queues) && id in subs
    ensures Receivers(subs, queues, done + {id}, capacity) ==
            Receivers(subs, queues, done, capacity) + (if |queues[id]| < capacity then {subs[id].principal} else {})
  {
  }

  lemma Winning(subs: Subscribers, queues: Queues, done: set<nat>, id: nat, capacity: nat, prompt: Prompt,
                winners: map<Principal, nat>)
    requires Wired(subs, queues) && Elected(subs, queues, done, capacity, winners) && id in subs && id !in done
    requires subs[id].principal !in winners && |queues[id]| < capacity
    requires Receivers(subs, queues, done + {id}, capacity)
      == Receivers(subs, queues, done, capacity) + {subs[id].principal}
    ensures var p := subs[id].principal;
      && winners[p := id].Keys == winners.Keys + {p}
      && Elected(subs, queues, done + {id}, capacity, winners[p := id])
      && Extended(subs, queues, winners[p := id], prompt)
         == Extended(subs, queues, winners, prompt)[id := queues[id] + [prompt]]
  {
    hide Receivers;
    assert winners[subs[id].principal := id].Keys == winners.Keys + {subs[id].principal};
  }

  /** One more candidate considered: skipped if its principal is served or its queue full, else it wins. */
  lemma ConsideringOne(subs: Subscribers, queues: Queues, done: set<nat>, id: nat, capacity: nat, prompt: Prompt,
                       winners: map<Principal, nat>)
    requires Wired(subs, queues) && Elected(subs, queues, done, capacity, winners) && id in subs && id !in done
    ensures var p := subs[id].principal;
      if p in winners || |queues[id]| >= capacity then Elected(subs, queues, done + {id}, capacity, winners)
      else
        && winners[p := id].Keys == winners.Keys + {p}
        && Elected(subs, queues, done + {id}, capacity, winners[p := id])
        && Extended(subs, queues, winners[p := id], prompt)
           == Extended(subs, queues, winners, prompt)[id := queues[id] + [prompt]]
    ensures id in Extended(subs, queues, winners, prompt) && Extended(subs, queues, winners, prompt)[id] == queues[id]
  {
    ReceiversOfMore(subs, queues, done, id, capacity);
    hide Receivers;
    if subs[id].principal in winners || |queues[id]| >= capacity {
      assert winners.Keys == Receivers(subs, queues, done + {id}, capacity);
    } else {
      Winning(subs, queues, done, id, capacity, prompt, winners);
    }
  }

  lemma NothingHandedOut(subs: Subscribers, queues: Queues, candidates: set<nat>, capacity: nat, prompt: Prompt)
    requires Wired(subs, queues)
    ensures HandedOut(subs, queues, queues, candidates, capacity, prompt, 0, map[])
  {
  }

  lemma NobodyYet(subs: Subscribers, queues: Queues, capacity: nat, prompt: Prompt)
    requires Wired(subs, queues)
    ensures Elected(subs, queues, {}, capacity, map[]) && Extended(subs, queues, map[], prompt) == queues
  {
  }

  lemma ElectedKeys(subs: Subscribers, queues: Queues, candidates: set<nat>, capacity: nat,
                    winners: map<Principal, nat>)
    requires Elected(subs, queues, candidates, capacity, winners)
    ensures winners.Keys == Receivers(subs, queues, candidates, capacity) && |winners| == |winners.Keys|
  {
    CountOfKeys(winners);
  }

  lemma {:induction false} CountOfKeys<K, V>(m: map<K, V>)
    ensures |m| == |m.Keys|
    decreases |m.Keys|
  {
    if m.Keys != {} {
      var k :| k in m.Keys;
      var rest := m - {k};
      assert rest.Keys == m.Keys - {k};
      CountOfKeys(rest);
      assert m == rest[k := m[k]];
    }
  }

  lemma IsCommandCandidate(subs: Subscribers, prompt: Prompt)
    ensures CommandCandidates(subs, prompt) <= subs.Keys
    ensures forall id :: id in subs ==>
              (id in CommandCandidates(subs, prompt) <==>
                subs[id].AllowsApp(prompt.app) && prompt.command in subs[id].commands)
  {
  }

  /** The agent broker's offering loop, over its candidate slice. */
  method OfferToAgents(subs: Subscribers, queues: Queues, prompt: Prompt)
    returns (queues': Queues, allowed: set<Principal>, delivered: nat, ghost winners: map<Principal, nat>)
    requires Wired(subs, queues)
    ensures HandedOut(subs, queues, queues', AgentCandidates(subs, prompt), AGENT_BUFFER, prompt, delivered, winners)
    ensures allowed == Receivers(subs, queues, AgentCandidates(subs, prompt), AGENT_BUFFER) && delivered == |allowed|
  {
    hide Elected, Extended, Receivers, AgentCandidates;
    var candidates := SelectAgentCandidates(subs, prompt);
    NobodyYet(subs, queues, AGENT_BUFFER, prompt);
    queues', allowed, delivered, winners := queues, {}, 0, map[];
    ghost var done: set<nat> := {};
    for i := 0 to |candidates|
      invariant forall id :: id in done <==> id in candidates[..i]
      invariant Elected(subs, queues, done, AGENT_BUFFER, winners) && queues' == Extended(subs, queues, winners, prompt)
      invariant allowed == winners.Keys && delivered == |allowed|
    {
      var id := candidates[i];
      assert id in candidates && id !in done && candidates[..i + 1] == candidates[..i] + [id];
      ConsideringOne(subs, queues, done, id, AGENT_BUFFER, prompt, winners);
      done := done + {id};
      if subs[id].principal !in allowed && |queues'[id]| < AGENT_BUFFER {
        queues' := queues'[id := queues'[id] + [prompt]];
        allowed := allowed + {subs[id].principal};
        delivered := delivered + 1;
        winners := winners[subs[id].principal := id];
      }
    }
    assert candidates[..|candidates|] == candidates;
    assert done == AgentCandidates(subs, prompt);
    ElectedKeys(subs, queues, done, AGENT_BUFFER, winners);
  }

  /** The legacy broker's loop: matching and offering in one pass over the subscriptions. */
  method OfferToCommands(subs: Subscribers, queues: Queues, prompt: Prompt)
    returns (queues': Queues, allowed: set<Principal>, delivered: nat, ghost winners: map<Principal, nat>)
    requires Wired(subs, queues)
    ensures HandedOut(subs, queues, queues', CommandCandidates(subs, prompt), COMMAND_BUFFER,
                      prompt, delivered, winners)
    ensures allowed == Receivers(subs, queues, CommandCandidates(subs, prompt), COMMAND_BUFFER)
      && delivered == |allowed|
  {
    hide Elected, Extended, Receivers, CommandCandidates;
    NobodyYet(subs, queues, COMMAND_BUFFER, prompt);
    IsCommandCandidate(subs, prompt);
    queues', allowed, delivered, winners := queues, {}, 0, map[];
    ghost var candidates, done := CommandCandidates(subs, prompt), {};
    var left := subs.Keys;
    while left != {}
      invariant left <= subs.Keys && done == candidates - left
      invariant Elected(subs, queues, done, COMMAND_BUFFER, winners)
        && queues' == Extended(subs, queues, winners, prompt)
      invariant allowed == winners.Keys && delivered == |allowed|
      decreases left
    {
      var id :| id in left;
      if !subs[id].AllowsApp(prompt.app) || prompt.command !in subs[id].commands {
        left := left - {id};
        assert id !in candidates;
        continue;
      }
      assert id in candidates && id !in done;
      left := left - {id};
      ConsideringOne(subs, queues, done, id, COMMAND_BUFFER, prompt, winners);
      done := done + {id};
      if subs[id].principal !in allowed && |queues'[id]| < COMMAND_BUFFER {
        queues' := queues'[id := queues'[id] + [prompt]];
        allowed := allowed + {subs[id].principal};
        delivered := delivered + 1;
        winners := winners[subs[id].principal := id];
      }
    }
    assert done == candidates;
    ElectedKeys(subs, queues, done, COMMAND_BUFFER, winners);
  }
}
