# feishu-botd: response, delivery, routing and snapshot protocols

A Dafny model of the stateful core of the Feishu bot daemon, with proofs of what its protocols
promise. `dafny verify dfyconfig.toml` checks the whole project.

The daemon drives a card at Feishu through several numbered calls per operation, over a network
that loses answers, delays calls and repeats them. It also decides who receives an inbound
message, starts one message per delivery, sends follow-ups and notifications at most once, and
hands providers a bounded snapshot of a thread. The model covers:

- **One response and its card** (`ResponseProtocol`, `CardChannel`, `AgentResponse`). Update,
  Finish and Replace are frozen plans of calls of which a prefix has been acknowledged. Each call
  may be accepted, refused temporarily, refused definitively, or left in doubt; Feishu applies a
  call iff its UUID is new and its sequence number larger than the last one applied, and copies
  may arrive at any later time. `CardSequence` proves the numbering and the order of calls over
  every run, `CardAgreement` that the card at Feishu shows what the daemon believes, up to the one
  call in doubt, and `CardFulfilment` that a receipt means the card shows the request;
  `ResponseProofs` proves revisions, phases and retries exact, and `ResponseAdmission` says in
  plain limits and values when a request is admitted and what each other one is answered;
  `AgentResponse` is the object whose methods update the fields in place, proved equal to the
  protocol step by step, log of issued calls included.
- **Starting a response** (`DeliveryStart`, `AgentDelivery`) and **follow-ups** (`FollowUps`,
  `FollowUpMessages`, `ConversationRoute`): when at most one message appears, whatever was
  ambiguous, given Feishu's one-hour memory of message UUIDs (`MessageWindow`). `StartAnswers` and
  `FollowUpHistory` tell what every attempt is answered from the attempts and sends before it, and
  `FollowUpAccess` who may send into a conversation from the events it has seen.
- **Inbound routing** (`InboundRouting`, `InboundRoutes`) and **fan-out** (`FanOut`): the route
  registry in front of two brokers, their expiring tables, and bounded subscriber queues visited
  in any order. `InboundReceivers` tells who may answer an event from what arrived before.
- **Notifications** (`Dedupe`): reservations, interleaved sends, and store keys per application.
- **Context snapshots** (`HistoryScan`, `ContextAssembly`, `ContextAssembler`,
  `ContextContents`): the paged walk against a flat reading of the history; the limits, labels and
  counted issues of the assembly; which bytes and words it carries, told from the messages and
  downloads alone; and (`ContextFraming`, `ContextStream`) the header and chunks against a strict
  receiver.
- **Progress messages** (`CotProgress`, `CotState`).
- **Message ownership** (`Ownership`, `OwnershipDisk`, `OwnershipRuns`, `OwnershipStore`): the
  snapshot file, its replacement action by action, and what restarts make of it.

Each stateful part has a pure meaning (a function from state and input to state and answer), a
class or loop proved equal to it, and lemmas over every run of that meaning. Every nondeterminism
is an input: what the network did, the order maps are walked in, the clock, fresh handles. Times
are integers, milliseconds unless said otherwise. Requests and UUIDs stand for their own hashes,
so hashing is taken to be free of collisions; the one place where the shape of a digest matters,
the dedupe namespace, keeps the digest as a function.

## Where the code and its documentation differ

The model follows the code. Each difference is proved exact in both directions, with an input.

- `docs/agent.md:639-643` says a follow-up retry is refused when it would fall outside Feishu's
  UUID window. The window is counted from the moment the failure *returned*
  (`internal/service/agent_followup.go:136`), not from the attempt, so a retry can miss the first
  message and post twice: `RetryMeetsTheFirstMessageIff`, over whole runs `AtMostOneFollowUpIff`,
  with the input `LateRetryPostsTwice`. Start counts from the attempt and is exact:
  `RetryRuleIsExact`.
- `docs/agent.md:218-220` says the first route is sticky for the dedupe lifetime. A start attempt
  overwrites the registry expiry instead of extending it (`internal/service/agent.go:1504-1506`),
  so within that lifetime a redelivery can reach a legacy consumer after an agent, unless the
  lifetime is the shortest that configuration allows: `PinnedEventIsHandedOnIff`,
  `RouteIsStickyForTheLifetimeIff`, `RouteSwitchesWithinTheLifetime`.
- `docs/agent.md:688-690` says a dedupe lifetime of an hour plus the send timeout retains an
  ambiguous start claim through the retry window. The claim is pinned before an attempt waits its
  turn (`internal/service/agent.go:690-700`), while the window counts from the send. Attempts that
  queue behind each other make the send begin late. More than two send timeouts and a millisecond
  after the pin, legal retries outlast it, at every lifetime: `PinOutlastsLegalRetriesIff`,
  `LegalRetryIsSafeIff`. What then fails is `PastThePin`. With the shortest lifetime configuration
  allows, an hour plus the send timeout, the delivery is gone and its event is handed on. With a
  longer one, such as the default six hours, the delivery is still found until that lifetime from
  its arrival is over, but the rewritten registry entry has ended, so a legacy consumer gets the
  event beside the retry: `LateRetryFromIdle`.
- `docs/agent.md:673-676` says the ownership snapshot retains the mappings for 24 hours and only a
  malformed one fails startup. The loader reads 8 MiB (`internal/ownership/store.go:144`), the
  writer has no limit, and an expired owner leaves the map only when its own message is looked up,
  so successful puts alone write a file the daemon refuses to start from: `RestartComesUpIff`,
  `RestartIsInvisibleIff`, `PutsAloneCanPreventARestart`, `SomePutsPreventARestart`.
- `docs/agent.md:448-450` says a completed retry is answered with its recorded receipt. The size
  budget is checked first (`internal/service/agent.go:950-953`), against the timeline the card has
  by then: `CompletedReplayAnsweredIffWithinBudget`, `ReplayCanBeRefused`.
- `docs/agent.md:339-340` says every limit produces a typed issue. When the 256th entry of a
  thread lies inside its last page, the rest of the page is dropped without one
  (`internal/feishu/attached_context.go:392-423`): `UnreadEntriesGoUnreportedIff`,
  `TheScanLimitCanGoUnreported`.
- `docs/agent.md:465-466` asks for a new operation id after a definitive rejection, and the code
  needs that: an id withdrawn after its answer call was accepted derives the same UUID again, and
  the corrected answer is acknowledged without taking effect. Over every run acknowledgements mean
  effects iff no id had a call of one role acknowledged twice: `AcknowledgedMeansAppliedIff`,
  `ReusedIdLosesTheCorrection`. The agreement theorems carry that condition, which a provider meets
  by never opening a second operation under one id: `NewIdsMeanAgreement`,
  `NewIdsMakeReceiptsTrue`. Numbering and issue order hold without it.

## Model

| member | source | states |
|---|---|---|
| CardFailures.FailuresPartition | internal/service/agent.go:1401-1423 | A failure is ambiguous exactly when there was no answer, a server error or code 300120, definitive exactly when Feishu rejected the call for good, and retryable exactly when it is not definitive: no failure is both definitive and ambiguous. |
| CardChannel.DisciplinedLogIsNumbered | internal/service/agent.go:1087-1122 | If every call either continues the numbering or repeats the call in doubt, the k-th acknowledged call carries sequence k. |
| CardChannel.IssueOrder | internal/service/agent.go:1220-1265 | Over the life of a card sequence numbers never go back, an acknowledged number is never issued again, and a number issued again after an ambiguous answer repeats the identical call. |
| CardChannel.FeishuFollowsTheLog | internal/service/agent.go:993-1085 | Whatever the network loses, delays or repeats, Feishu has applied exactly the acknowledged calls, in order, plus at most the one in doubt; given that no UUID was acknowledged twice. |
| CardChannel.AcknowledgedCallsLandIff | internal/service/agent.go:963-963 | For every disciplined log and whatever the network did with it: every acknowledged call took effect at Feishu iff no UUID was acknowledged twice. |
| ResponseProofs.PendingOperationContinues | internal/service/agent.go:1220-1265 | While an operation is pending a request either changes and issues nothing, or is that same request and its calls continue the plan frozen at the first attempt: same payload, UUID and sequence, in order, none acknowledged before. |
| ResponseProofs.ReceiptsAreExact | internal/service/agent.go:1301-1327 | A receipt names the expected revision plus one, first time and replayed; only a first receipt moves the revision, by one, and nothing else changes the phase. |
| ResponseProofs.CompletedIsForever | internal/service/agent.go:1336-1366 | A completed operation keeps its record and receipt through every later run, and the revision never goes back. |
| ResponseProofs.RevisionsAreCompletedOperations | internal/service/agent.go:981-987 | Over any run, revisions 2..revision and completed operations match one to one, each made by the request that expected the revision before. |
| ResponseProofs.PhaseChangesOnce | internal/service/agent.go:1273-1281 | The phase leaves Streaming at most once, for the phase of the one completed Finish, and never changes again. |
| ResponseProofs.IncompleteIsPending | internal/service/agent.go:1301-1334 | In every reachable state a record is incomplete exactly when it is the pending one. |
| ResponseProofs.GivingUpIsAbsorbing | internal/service/agent.go:1368-1370 | After a call in doubt was definitively rejected, no Update, Finish or Replace issues a call or changes anything. |
| ResponseProofs.GivingUpNeedsDoubt | internal/service/agent.go:1008-1013 | A response is given up only by a definitive rejection of the very call in doubt of the pending operation, answered with operation_state_unknown. |
| ResponseProofs.RetryCompletesIffWithinBudget | internal/service/agent.go:1124-1139 | A pending operation completes on the first retry the network lets through exactly when the size budget, checked again, admits it, issuing just the calls that are left. |
| ResponseAdmission.AdmittedIff | internal/service/agent.go:1301-1327 | In any reachable state, a request under a new id whose calls go through gets the first receipt, for the next revision, iff: id of 1 to 64 characters, current revision, nothing pending, answer of 1 to 30720, timeline and titles within 30720 and 200, answer and resulting timeline together within 30720, streaming for Update and Finish or completed, failed or cancelled for Replace, and one of these three outcomes for Finish. No other request under a new id gets a receipt. |
| ResponseAdmission.MalformedRequestsAreNamed | internal/service/agent.go:901-1172 | Missing id, revision zero, wrong outcome, missing answer and oversized field are each answered iff that is the first thing wrong, whatever the state and the network. |
| ResponseAdmission.RefusalsAreNamed | internal/service/agent.go:1301-1327 | A well-formed request is answered operation_conflict, response_closed, response_not_closed, operation_in_flight or revision_conflict iff its own cause holds and none before it; and duplicate receipts answer completed operations alone. |
| ResponseAdmission.FailedCallsAreNamed | internal/service/agent.go:993-1085 | What every attempt is answered by its calls: a receipt if all were accepted, else the error of the first that was not, named by the kind of failure and by whether an earlier attempt left that call in doubt. |
| ResponseAdmission.ReceiptLeavesTheShadow | internal/service/agent.go:1019-1085 | After an operation completed in its first attempt the daemon holds the new answer, none after Finish and the old one after Replace, the timeline with the parts asked for, one more completed record, and nothing pending. |
| CardSequence.SequenceIsGapFree | internal/service/agent.go:1087-1122 | Over every run, with updates, finishes, replacements, retries, withdrawals and reused ids mixed at will, the k-th acknowledged call carries sequence k, nextSequence counts them, and issue order is kept. |
| CardSequence.AttemptsOfACallAreIdentical | internal/service/agent.go:1220-1265 | Over every run, after an answer that settles nothing, ambiguous or an explicit temporary refusal, the next call issued is the same one: payload, UUID and sequence. |
| CardAgreement.CardShowsTheShadow | internal/service/agent.go:937-1122 | For every run in which no UUID was acknowledged twice and every delivery of its calls, Feishu has the acknowledged calls and at most the one in doubt; while streaming, the card shows the shadow answer, timeline and header, or the shadow with that one call applied. |
| CardAgreement.AcknowledgedMeansAppliedIff | internal/service/agent.go:1008-1023 | For every run and every delivery of its calls: every call the daemon holds acknowledged took effect iff no operation id had a call of one role acknowledged twice. |
| CardFulfilment.ReceiptMeansTheCardShowsIt | internal/service/agent.go:937-1282 | After a first receipt, whatever the run, the attempts and the late copies were, the card at Feishu shows the request: its answer, the timeline parts it named, and after Finish or Replace the closed mode and summary; given that no UUID was acknowledged twice. |
| CardFulfilment.PlanFulfils | internal/service/agent.go:1220-1232 | A plan that skips what the shadow already shows turns the card into exactly the card asked for: the parts named are replaced, a Finish or Replace closes it with its summary, everything else stays. |
| CardFulfilment.FirstReceiptChangesOnlyWhatIsAsked | internal/service/agent.go:937-1282 | For an operation that goes through in its first attempt, begun while streaming, over every run and delivery: the card at Feishu is the one acknowledged before with just what the request asks for changed; given that no UUID was acknowledged twice. |
| CardFulfilment.DriveMovesCalls | internal/service/agent.go:993-1085 | An attempt only moves calls from what is left of the frozen plan to what is acknowledged, and a receipt means none is left. |
| FreshIds.NeverReusingAnIdIsEnough | internal/service/agent.go:1329-1334 | A provider that never opens a second operation under one id, however often it retries, never has a UUID acknowledged twice. |
| FreshIds.NewIdsMeanAgreement | internal/service/agent.go:937-1122 | For such a provider, over every run and whatever the network does, card and shadow agree up to the one call in doubt. |
| FreshIds.NewIdsMakeReceiptsTrue | internal/service/agent.go:937-1282 | For such a provider a first receipt means that the card at Feishu shows the request. |
| ResponseLimits.ReusedIdLosesTheCorrection | internal/service/agent.go:1008-1023 | Concrete run: a withdrawn id used again gets a receipt and shadow "second" while the card still says "first". |
| ResponseLimits.CompletedReplayAnsweredIffWithinBudget | internal/service/agent.go:950-959 | A completed operation submitted again changes and issues nothing, and is answered with its recorded receipt iff the request still fits beside the current timeline. |
| ResponseLimits.ReplayCanBeRefused | internal/service/agent.go:950-959 | Concrete run: a long answer, then a grown timeline; the first operation can no longer be replayed. |
| AgentResponses.AgentResponse.constructor | internal/service/agent.go:840-865 | A started response is Streaming at revision 1 with nothing pending and nothing issued. |
| AgentResponses.AgentResponse.BeginOperation | internal/service/agent.go:1301-1327 | Refuses with exactly the protocol error of the old state, or finds the same record, or claims the id with a new unplanned one. |
| AgentResponses.AgentResponse.AbortOperation | internal/service/agent.go:1329-1334 | Removes that record alone and clears the pending id iff it was this one. |
| AgentResponses.AgentResponse.PlanTimelineCalls | internal/service/agent.go:1095-1122 | Plans exactly the timeline calls that differ from the shadow, numbered on from the content call or from nextSequence. |
| AgentResponses.AgentResponse.CommitCall | internal/service/agent.go:1019-1022 | An accepted call acknowledges the next call of the plan: number, shadow and record follow at once. |
| AgentResponses.AgentResponse.FailCall | internal/service/agent.go:1008-1017 | A failed call gives the operation up, withdraws it, or leaves it in doubt, exactly by the kind of failure and earlier doubt. |
| AgentResponses.AgentResponse.RejectCall | internal/service/agent.go:1008-1013 | A definitive rejection closes an operation in doubt and withdraws any other. |
| AgentResponses.AgentResponse.ApplyAgentContent | internal/service/agent.go:993-1023 | One issue of the answer call: the attempt goes on as the protocol would, or has ended as it would. |
| AgentResponses.AgentResponse.ApplyAgentTimeline | internal/service/agent.go:1029-1085 | Body then header, each only if planned and not done: the attempt goes on, or has ended, as in the protocol. |
| AgentResponses.AgentResponse.ApplyAgentSettings | internal/service/agent.go:1243-1265 | The closing call of a finish or replacement, likewise. |
| AgentResponses.AgentResponse.ApplyAgentPatch | internal/service/agent_replace.go:96-118 | The batch patch of a replacement, likewise. |
| AgentResponses.AgentResponse.ApplyAgentUpdate | internal/service/agent.go:937-988 | Update as a whole: new state, reply and issued calls are those of the protocol. |
| AgentResponses.AgentResponse.ApplyAgentFinish | internal/service/agent.go:1195-1282 | Finish as a whole: new state, reply and issued calls are those of the protocol. |
| AgentResponses.AgentResponse.ApplyAgentReplacement | internal/service/agent_replace.go:64-185 | Replace as a whole: new state, reply and issued calls are those of the protocol. |
| AgentResponses.AgentResponse.Handle | internal/service/agent.go:901-1193 | Any request, screened first: state, reply and log afterwards are those of one protocol step. |
| MessageWindow.OneMessageAtMost | internal/service/agent.go:1425-1433 | Sends of one UUID that take effect within one window make one message, in whatever order they come. |
| MessageWindow.PostedPair | internal/service/agent.go:1425-1433 | A second effect under one UUID is swallowed exactly when it comes less than an hour after the first. |
| DeliveryStart.AtMostOneMessage | internal/service/agent.go:667-890 | Over any run of start attempts with any failures and effects as late as the send timeout allows, every send that took effect carried one UUID and at most one message appeared. |
| DeliveryStart.AmbiguityPinsTheMessage | internal/service/agent.go:742-834 | From an ambiguous send on, the claim, the card and the message UUID stay; every further send reuses them and none can miss the window; once closed nothing is sent. |
| DeliveryStart.WithdrawalLeavesNothingBehind | internal/service/agent.go:1372-1387 | A start claim is given back only while nothing sent under it can have appeared. |
| DeliveryStart.OpeningIsForever | internal/service/agent.go:710-725 | Once a response is open every later attempt leaves it as it is and sends nothing. |
| StartAnswers.OpeningIsExplained | internal/service/agent.go:726-884 | Over any run of attempts an open response has the handle drawn by the attempt that claimed, the card a creation under that claim returned, the message the opening send returned, and the claim's provider; the opening attempt repeats the claiming request. |
| StartAnswers.OpenResponseAnswersItsRequest | internal/service/agent.go:710-725 | Over any run, once an attempt has opened a response: the same request is answered with that response's handle as a duplicate if its owner persists, another id with already_responded, another card or provider under the same id with operation_conflict, a provider not among the receivers with unknown_delivery; and nothing changes any more. |
| StartAnswers.AClaimTurnsOthersAway | internal/service/agent.go:702-716 | While a claim stands, open or not, every request but the claim's own is turned away likewise and changes and sends nothing; its own request is not. |
| StartAnswers.FailedAttemptsAreNamed | internal/service/agent.go:752-835 | What one more attempt in time makes of a claim, outcome by outcome: a card is created only if there is none, a final refusal gives the claim back or, after doubt, closes it, any other failure keeps claim, card and UUID and starts the clock of doubt once. |
| StartAnswers.ClosedRetriesAreNamed | internal/service/agent.go:742-749 | Past the hour of the first doubtful send, or once closed, the same request is told so for good and nothing is sent. |
| DeliveryStart.RetryRuleIsExact | internal/service/agent.go:1425-1433 | A start retry is let through iff even its latest effect would meet a message posted as early as the first ambiguous attempt. |
| AgentDeliveries.AgentDelivery.AbortStartAttempt | internal/service/agent.go:1372-1387 | The delivery is as it was when received. |
| AgentDeliveries.AgentDelivery.StartAgentResponse | internal/service/agent.go:700-890 | One start attempt: state, reply and sends are those of the start function. |
| AgentDeliveries.AgentDelivery.CheckThenSend | internal/service/agent.go:742-749 | Nothing is sent once retries are closed or the retry window is over, which closes them. |
| AgentDeliveries.AgentDelivery.CreateThenSend | internal/service/agent.go:754-766 | The card is created once per claim, then sent. |
| AgentDeliveries.AgentDelivery.SendOnce | internal/service/agent.go:775-890 | One send and what its outcome does to the claim, a success without a message id included: that leaves the delivery starting for good. |
| AgentDeliveries.AgentDelivery.FailSend | internal/service/agent.go:795-833 | A failed send closes the claim, gives it back, or keeps it for a retry, exactly by the kind of failure and earlier doubt. |
| FollowUps.OneHandleAndOneSendPerCaller | internal/service/agent_followup.go:193-281 | In every interleaving, through expiries of the route, a caller has at most one record and at most one send under way, and its commit or abort finds the record its begin claimed: no route expires with a send under way. |
| FollowUps.HandleReplacedOnlyAfterRefusal | internal/service/agent_followup.go:255-281 | Over any run, expiries of the route included: of two sends of one caller begun no more than a lifetime apart, the later carries the handle of the earlier unless that one was definitively refused. |
| FollowUps.KeyIsOwnOrFree | internal/service/agent_followup.go:233-243 | Despite raw and scoped keys, a caller is led to its own record or a free place, and has no other. |
| FollowUps.OthersKeepTheirKey | internal/service/agent_followup.go:233-243 | Whatever one caller does, every other caller with a send under way is led to the same record. |
| FollowUps.CompletedFollowUpReplays | internal/service/agent_followup.go:193-231 | While its route is kept a completed follow-up answers the same content with its handle and other content with a conflict, and sends nothing; once the route has expired the caller is unknown. |
| FollowUps.DeliveredFollowUpIsNotSentAgain | internal/service/agent_followup.go:296-340 | After any run, for a lifetime from the beginning of a delivered send, its caller gets that handle or a conflict: the route and the record are still there. |
| FollowUps.ForgottenFollowUpIsSentAgain | internal/service/agent.go:1695-1699 | Concrete run with default settings: seven hours later the conversation speaks again and the repeated follow-up is sent under a new handle. |
| FollowUpHistory.RepeatedFollowUpIsAnswered | internal/service/agent_followup.go:193-281 | After any run, for a lifetime from the beginning of its caller's last send: other content conflicts; delivered content gets its handle; the rest is sent again under the same handle, unless it could take effect an hour after the return of some doubtful send under it; and only a final refusal with nothing in doubt frees the id. |
| FollowUpHistory.FollowUpUnderWayIsAnswered | internal/service/agent_followup.go:200-213 | While a send is under way its own content is told so and other content conflicts. |
| FollowUpAccess.GrantedIffAdmitted | internal/service/agent_followup.go:389-441 | After any run a provider may send iff some event less than a lifetime ago spoke to it, or was its own action after it had been spoken to on the route as it then was. |
| FollowUpAccess.WhoMaySend | internal/service/agent_followup.go:218-221 | After any run a caller without a record is let through, given a handle, iff its provider is admitted by such an event; every other one is told unknown_conversation, whoever else was spoken to. |
| FollowUpAccess.RecordsComeFromSends | internal/service/agent_followup.go:255-281 | A caller has a record iff a send of it is under way or its last one, begun on the route as it is, was not refused for good with nothing in doubt. |
| FollowUps.RetryMeetsTheFirstMessageIff | internal/service/agent_followup.go:124-138 | A retry the guard lets through is sure to meet the first message iff the guard would also have passed with the clock at the attempt. |
| FollowUpMessages.AtMostOneFollowUpIff | internal/service/agent_followup.go:124-340 | For every lifetime of an hour or more, over any interleaving of any callers and any expiries of the route: however the effects of one caller's sends fell within their time, at most one message of it appeared, iff every send would also have passed the retry guard with the clock at the start of each earlier one that may have appeared. |
| FollowUps.LateRetryPostsTwice | internal/service/agent_followup.go:124-138 | Concrete run with default settings in which the same follow-up is posted twice. |
| ConversationRoutes.ConversationRoute.Expired | internal/service/agent_followup.go:184-188 | Whether the broker forgets the route before a lookup or a dispatch, leaving nothing of it. |
| ConversationRoutes.ConversationRoute.FollowUpOperationKey | internal/service/agent_followup.go:233-243 | The key rule: own scoped record, else own or ownerless raw record or free raw key, else the scoped key. |
| ConversationRoutes.ConversationRoute.LookupAndPinConversation | internal/service/agent_followup.go:296-340 | Found only for a granted provider or one with a record; the route is kept at least a send timeout longer. |
| ConversationRoutes.ConversationRoute.BeginFollowUp | internal/service/agent_followup.go:193-231 | Claims one send, replays, or refuses, exactly as the ledger function says. |
| ConversationRoutes.ConversationRoute.CommitFollowUp | internal/service/agent_followup.go:245-253 | The record becomes complete and no longer pending. |
| ConversationRoutes.ConversationRoute.AbortFollowUp | internal/service/agent_followup.go:255-281 | The record is dropped, kept retryable, or marked ambiguous since the failure returned. |
| ConversationRoutes.ConversationRoute.RecordConversation | internal/service/agent_followup.go:389-424 | A delivered message grants all its receivers and extends the route; one of another application changes nothing. |
| ConversationRoutes.ConversationRoute.RefreshConversation | internal/service/agent_followup.go:423-441 | A grant the provider has is extended with the route; nobody gets a new one. |
| InboundRouting.HandedOnceWhileLeased | internal/service/command.go:315-363 | After any run of dispatches, pins and prunes, an event reaches one broker only, and nobody while an earlier lease on its delivery id or message lives; every hand-over left such a lease. |
| InboundRouting.HandOversLieApart | internal/service/command.go:315-363 | Over any run, two hand-overs of one event, by delivery id or message and to whichever broker, lie further apart than the dedupe lifetime or the hour plus send timeout a pin leaves of it. |
| InboundRouting.NothingIsReroutedWhilePinned | internal/service/agent.go:1489-1509 | From a start attempt on, for an hour plus the send timeout and whatever else happens, every receiver finds the delivery and no copy of its event, by id or by message, goes to anyone. |
| InboundRouting.PinOutlastsLegalRetriesIff | internal/service/agent.go:1425-1433 | The pin lasts through every moment at which a retry of a send is legal iff the send began at most two send timeouts and a millisecond after the pin. |
| InboundRouting.NothingIsReroutedWhileARetryIsLegal | internal/service/agent.go:686-700 | While a retry is legal and its send began that soon after the pin, the delivery is found and no copy of its event goes to anyone, from any state and through any run. |
| InboundRouting.LegalRetryIsSafeIff | internal/service/agent.go:686-700 | From any state, for any lifetime and over every run after the pin, a legal retry finds its delivery and its event goes to nobody, iff the send began that soon, or else the event has no message and both brokers know it till the last legal retry. |
| InboundRouting.PastThePin | internal/service/agent.go:1464-1509 | At any moment past the pin the delivery is found iff the lifetime it got on arrival is not over, and a legacy consumer gets the event iff the legacy broker did not itself have it and still know it. |
| InboundRouting.LateRetryIsNotSafe | internal/service/agent.go:1425-1509 | From any state but that one, at any moment past the pin: the delivery is gone, or a copy of its event is handed to a legacy consumer. |
| InboundRouting.LateRetryFromIdle | internal/service/agent.go:1425-1509 | Concrete run for every lifetime and every later start of the send: at a legal retry a legacy consumer gets the event, and the delivery is gone iff its lifetime is over. |
| InboundRouting.PinnedEventIsHandedOnIff | internal/service/agent.go:1504-1506 | After a start attempt and while the agent broker knows the delivery, a redelivery is handed to somebody iff the rewritten registry entry has ended, the event may go to legacy consumers, one is up, and their broker does not know it. |
| InboundRouting.RouteIsStickyForTheLifetimeIff | internal/service/command.go:315-363 | Every timely run keeps the hand-overs of one event further apart than the dedupe lifetime, iff that lifetime is at most an hour plus the send timeout. |
| InboundRouting.RouteSwitchesWithinTheLifetime | internal/service/agent.go:1504-1506 | Concrete run for every longer lifetime: within it an event goes to an agent and then to a legacy consumer. |
| InboundReceivers.FirstArrivalIsHandedOn | internal/service/agent.go:566-585 | After any run an event new by id and message goes to all legacy consumers with room, if it may and there are any, else to nobody if its conversation belongs to another application, else to all agents with room. |
| InboundReceivers.OnlyReceiversFindTheDelivery | internal/service/agent.go:1464-1482 | After any run a start attempt finds a delivery only if its provider was among the agents an arrival of that id was handed to, in no conflicting conversation, and the application is allowed to it. |
| InboundReceivers.EveryReceiverFindsTheDelivery | internal/service/agent.go:650-665 | For a lifetime after an event was handed to agents, whatever else happens, each of them finds the delivery while the application is allowed to it. |
| InboundRoutes.PruneExpired | internal/service/command.go:352-363 | In any order of visiting, exactly the entries whose expiry has passed are deleted. |
| InboundRoutes.PruneAgentDeliveries | internal/service/agent.go:1668-1673 | The same for the agent broker's deliveries. |
| InboundRoutes.InboundRouter.DispatchToCommands | internal/service/command.go:469-509 | The legacy broker: state, count and handled flag as in the model, queues by the fan-out rule. |
| InboundRoutes.InboundRouter.DispatchToAgents | internal/service/agent.go:566-665 | The agent broker: state with the receivers kept as the delivery's permitted providers, count and handled flag as in the model, queues by the fan-out rule. |
| InboundRoutes.InboundRouter.DispatchInboundRoute | internal/service/command.go:315-350 | The whole dispatch: tables, counts and both sets of queues. |
| InboundRoutes.InboundRouter.LookupAndPinAgentDelivery | internal/service/agent.go:1464-1509 | The pin: extended in the broker, overwritten in the registry, nothing if the delivery is unknown or not permitted. |
| FanOut.EachReceiverGetsOneCopy | internal/service/agent.go:635-649 | Whatever order subscriptions are visited in, the principals with some candidate queue with room get exactly one copy each, and nobody else any. |
| FanOut.ExactMatchSuppressesFallback | internal/service/agent.go:588-611 | One allowed exact match keeps the message from every subscription that does not match, even when its own queue is full and nobody gets it. |
| FanOut.IneligibleSubscribersDoNotMatter | internal/service/agent.go:594-599 | A subscription excluded by its app allowlist or by the reply pin neither receives nor suppresses. |
| FanOut.OnlyEntitledAgentsReceive | internal/service/agent.go:588-611 | A queue that changed had room among 64 places and got one copy at its end; its subscription is the pinned provider's if there is a pin, its allowlist is absent or names the application, and it takes the command or unmatched messages. |
| FanOut.EveryEntitledAgentReceives | internal/service/agent.go:588-649 | A subscription with room that pin and allowlist admit gets its provider the one copy if it takes the command, or takes unmatched messages and no admitted one takes the command; only an admitted match keeps a fallback from it. |
| FanOut.ReceiversGotTheCopies | internal/service/agent.go:635-649 | The principals recorded as receivers are exactly those with one copy in one of their queues. |
| FanOut.CommandsReachExactly | internal/service/command.go:476-497 | A legacy subscription that takes the command and allows the application gets its provider one copy if one of its 32 places is free; every other queue stays as it was. |
| FanOut.SelectAgentCandidates | internal/service/agent.go:588-611 | The slices built in any order are the exact matches, or the fallbacks if there is none, each once. |
| FanOut.OfferToAgents | internal/service/agent.go:635-649 | The offering loop: winners one per principal with room, queues extended by one copy, delivered equal to the number of allowed providers. |
| FanOut.OfferToCommands | internal/service/command.go:476-497 | The legacy loop, matching and offering in one pass, to the same effect. |
| Dedupe.OneSendInFlightIffEntriesOutliveSends | internal/service/notify.go:123-167 | In every interleaving at most one send per key is in flight, iff the entry lifetime is no shorter than the send timeout. |
| Dedupe.NothingIsSentBesideASendInFlight | internal/dedupe/store.go:38-56 | Beside a send in flight the same content is told so and other content conflicts. |
| Dedupe.CommittedUntilItExpires | internal/dedupe/store.go:38-68 | From commit to expiry, whatever else happens, the same content gets the committed message, other content conflicts, nothing is sent. |
| Dedupe.ReturningCommits | internal/dedupe/store.go:58-68 | A returning send settles its key under its own content for a full lifetime. |
| Dedupe.DeliveryIsAnsweredByItsHistory | internal/service/notify.go:123-167 | After any run, told from the events: beside a send under way, in-flight or conflict; for a lifetime after a send returned with a message, that message or conflict; in every other case it is sent, so a failed send and the end of a lifetime free the key. |
| DedupeKeys.AppsNeverShareAnEntry | internal/service/notify.go:169-180 | No source a default-app caller may send, and no other named app, reaches an application's entries; named apps never confuse two of their own. |
| DedupeKeys.SharedKeyIff | internal/dedupe/store.go:38-40 | Two (source, key) pairs share a store entry iff they are equal or one source carries the other, a NUL and the lost part of the key. |
| DedupeStore.MemoryStore.Reserve | internal/dedupe/store.go:38-56 | The reservation function on the full key. |
| DedupeStore.MemoryStore.Commit | internal/dedupe/store.go:58-68 | The commit function on the full key. |
| DedupeStore.MemoryStore.Abort | internal/dedupe/store.go:70-75 | The entry is gone. |
| DedupeStore.MemoryStore.Deliver | internal/service/notify.go:123-167 | One uninterrupted delivery: sends iff the reservation is fresh, then commits or gives it back; without deduplication the store is untouched. |
| HistoryScan.SnapshotCandidates | internal/feishu/attached_context.go:363-432 | The paged walk equals a flat reading of the concatenated history, for every sequence of answers, failures and empty pages included, and makes at most 256 calls if no page is empty. |
| HistoryScan.ScanPage | internal/feishu/attached_context.go:392-418 | One page of the walk: everything up to the scan limit gathered, or the 64th predecessor with something known behind it. |
| HistoryScan.CollectMore | internal/feishu/attached_context.go:392-418 | One more entry adds the trigger, a predecessor, or nothing. |
| HistoryScan.NothingNewerThanTheTrigger | internal/feishu/attached_context.go:399-412 | In a newest-first history the snapshot is the trigger and at most 64 messages, none newer. |
| HistoryScan.UnreadEntriesGoUnreportedIff | internal/feishu/attached_context.go:392-431 | Entries beyond the 256th go unreported iff the last page starts before the limit and no 64 predecessors were found. |
| HistoryScan.TheScanLimitCanGoUnreported | internal/feishu/attached_context.go:392-423 | Concrete history of 260 entries whose last message is dropped with no issue. |
| HistoryScan.WholeMeansAllPredecessors | internal/feishu/attached_context.go:421-423 | Within the scan limit an untroubled walk has the trigger and every predecessor. |
| ContextAssembly.LimitsHold | internal/feishu/attached_context.go:222-361 | For all candidates and download outcomes the counters equal what is carried, and 64 KiB of text, 8 images of 5 MiB and 16 MiB in all, 2 videos of 64 MiB and 96 MiB in all are never exceeded. |
| ContextAssembly.NothingIsLostInSilence | internal/feishu/attached_context.go:222-361 | Rows are honest parts of their messages, an oldest-first subsequence, withdrawn ones excluded; nothing is cut without an issue; with no issue everything is there; unreadable follows from the issues. |
| ContextAssembly.ProcessReported | internal/feishu/attached_context.go:238-350 | One message adds at most one honest row and reports whatever of it is missing. |
| ContextAssembly.LabelsNameAuthors | internal/feishu/attached_context.go:334-343 | Labels are equal exactly for equal author keys, absent without one, numbered by first appearance. |
| ContextAssembly.LabelsStay | internal/feishu/attached_context.go:334-343 | A label given once stays the same as the snapshot grows. |
| ContextAssembly.AppendOrIncrement | internal/feishu/attached_context.go:790-801 | Keeps one entry per issue code, in order of first appearance, with the exact count. |
| ContextAssembly.Utf8Prefix | internal/feishu/attached_context.go:763-775 | The longest prefix of whole characters that fits the limit. |
| ContextAssemblers.Assemble | internal/feishu/attached_context.go:222-361 | The assembly loop: labelled messages, tallied issues, truncation flag and status of the fold. |
| ContextAssemblers.CarryImages | internal/feishu/attached_context.go:268-292 | The image loop with its attempt limit, byte limit and issues. |
| ContextAssemblers.CarryVideos | internal/feishu/attached_context.go:294-321 | The video loop, likewise, and whether any video failed. |
| ContextAssemblers.ShowText | internal/feishu/attached_context.go:251-266 | The text budget: shown, cut or dropped, with an issue if not whole. |
| ContextAssemblers.Share | internal/feishu/attached_context.go:331-350 | Labels a message through the table of participants and appends it. |
| ContextAssemblers.LookupAttachedContext | internal/feishu/attached_context.go:174-190 | Without the trigger nothing is shown and the lookup is unreadable; with it, the assembly of the scanned candidates. |
| ContextAssemblers.NoIssueMeansTheWholeThread | internal/feishu/attached_context.go:174-190 | A thread within the scan limit whose snapshot raised no issue is shown in full. |
| ContextAssemblers.EndingsAreReported | internal/feishu/attached_context.go:363-432 | Which issue a walk ends with, and whether it marks the snapshot truncated or unreadable, told from the history: more than 64 predecessors, 256 entries before the last page, or a page that could not be read. |
| ContextContents.ImageDownloads | internal/feishu/attached_context.go:640-666 | An image is its download's very bytes and type, iff within 5 MiB and of a named type; unreadable, too large and wrong type have one cause each. |
| ContextContents.VideoDownloads | internal/feishu/attached_context.go:684-718 | A video is its download's very bytes and type with the announced duration and the longest beginning of its name in 256 bytes, iff of ten minutes at most, read, within 64 MiB and of a named type; each refusal has one cause. |
| ContextContents.SizeCountsBytes | internal/feishu/attached_context.go:763-775 | The measure of text is the number of bytes of its UTF-8 encoding (section 3 of RFC 3629). |
| ContextContents.ImagesAreTheFirstThatFit | internal/feishu/attached_context.go:268-292 | All images of a snapshot, in order, are the bytes of the messages' own images: of the first eight those of a named type within 5 MiB that still fit into 16 MiB; every other one is reported once, in order, under its own cause. |
| ContextContents.VideosAreTheFirstThatFit | internal/feishu/attached_context.go:294-321 | The same for videos: of the first two those of ten minutes and 64 MiB at most that still fit into 96 MiB, with duration and cut name. |
| ContextContents.TextFitsBest | internal/feishu/attached_context.go:251-266 | The text shown is the longest beginning in whole characters that fits the room left of 65536 bytes, reported iff not whole. |
| ContextContents.MessageIsShown | internal/feishu/attached_context.go:238-350 | A withdrawn message adds nothing; any other adds a row of its own best-fitting text, none if it is the trigger, with the placeholder iff there is no text and a video is missing; a row with nothing to show is left out. |
| ContextContents.RowsShowTheirOwn | internal/feishu/attached_context.go:238-350 | Every row is of a candidate that was not withdrawn and shows a beginning of that message's words and bytes of that message's own images and videos. |
| ContextContents.UnreportedImagesAreWhole | internal/feishu/attached_context.go:268-292 | With no image reported, every image of every message is there byte for byte. |
| ContextContents.UnreportedVideosAreWhole | internal/feishu/attached_context.go:294-321 | With no video reported, every video is there byte for byte, with its type and duration. |
| ContextContents.TruncatedIffALimitWasReported | internal/feishu/attached_context.go:222-361 | The assembly marks a snapshot truncated iff a text, image or video limit was reported. |
| ContextFraming.FramingRoundTrips | internal/grpcapi/attached_context.go:24-126 | A receiver that accepts only contiguous, in-order chunks of at most 64 KiB with final exactly last, images before videos, accepts the whole stream and rebuilds the snapshot. |
| ContextFraming.HeaderSizes | internal/grpcapi/attached_context.go:99-125 | The k-th announced size is the length of the k-th item: indices are dense and match. |
| ContextFraming.RebuildsOne | internal/grpcapi/attached_context.go:99-125 | Putting each message's bytes back by index gives that message. |
| ContextStreams.BuildHeader | internal/grpcapi/attached_context.go:88-126 | The header loop numbers images and videos as they are met and sets their bytes aside in order. |
| ContextStreams.SendChunks | internal/grpcapi/attached_context.go:43-83 | The chunking loops produce exactly the specified chunks of every item. |
| ContextStreams.GetAgentAttachedContext | internal/grpcapi/attached_context.go:24-85 | What the receiver makes of the whole stream is the snapshot itself. |
| CotProgress.ProgressIsTheJoin | internal/service/agent_cot.go:115-143 | A step is known once reported and finished once reported finished, whatever the order or repetition. |
| CotProgress.OrderOfSnapshotsDoesNotMatter | internal/service/agent_cot.go:115-143 | Two snapshots lead to the same progress in either order. |
| CotProgress.RepeatedSnapshotsAddNothing | internal/service/agent_cot.go:115-143 | A snapshot reported before adds no event, whatever came between. |
| CotProgress.StartIsAnnouncedIff | internal/service/agent_cot.go:115-143 | A step's start is announced iff its very first report fits an event. |
| CotProgress.StreamOfAResponse | internal/service/agent_cot.go:41-193 | Over a response's life the stream is RUN_STARTED, steps each started at most once and then finished at most once, RUN_FINISHED; exactly as far as the progress if labels fit; an opening that failed is never retried. |
| CotProgress.EventsNameTheirSteps | internal/service/agent_cot.go:115-143 | Every event built carries a title reported for its step, and a finish one reported with the finish. |
| CotProgress.OpensAtTheFirstTry | internal/service/agent_cot.go:82-102 | Without an attempt at the start, a progress message is open iff the first report with steps and a surface was bound and accepted by Feishu. |
| CotProgress.OpensAtTheStart | internal/service/agent_cot.go:41-75 | With an attempt at the start, a progress message is open for good iff that attempt was bound and accepted. |
| CotProgress.ReportsAreFollowed | internal/service/agent_cot.go:82-102 | An open message follows every report while there is a surface and is left alone without one. |
| CotStates.CotState.StepEvents | internal/service/agent_cot.go:115-143 | Events and progress of one snapshot, whether or not the events can be built. |
| CotStates.CotState.CreateAgentCot | internal/service/agent_cot.go:41-75 | One attempt to open: run start and known steps, or given up. |
| CotStates.CotState.AdvanceAgentCot | internal/service/agent_cot.go:82-102 | Adds what moved, or opens at the first steps if never attempted. |
| CotStates.CotState.FinishAgentCot | internal/service/agent_cot.go:166-193 | Closes an open run once per call, and only an open one. |
| Ownership.LoadRebuildsIff | internal/ownership/store.go:134-161 | Loading a file listing a map gives back that map iff all owners are valid, the file is complete and it is within the read limit; otherwise it fails closed. |
| Ownership.SnapshotIsCanonical | internal/ownership/store.go:163-172 | The file is determined by the map: any two sorted listings are the same. |
| OwnershipDisk.ReplacementIsAtomic | internal/ownership/store.go:163-218 | Whether the replacement completes, fails or dies after any of its actions, a write cut short included, the file is exactly the old or the complete new snapshot, and the new one iff the rename was reached; likewise what a power loss can leave. |
| OwnershipDisk.PowerLossTearsNothing | internal/ownership/store.go:191-216 | A power loss at any time leaves the file complete: everything under the name was synced before the rename. |
| OwnershipRuns.FileIsAWholePastMap | internal/ownership/store.go:163-218 | Over any run of puts, lookups, failed and interrupted replacements, deaths, power losses and restarts, the file is complete and lists the whole map as it once stood in memory, all owners valid. |
| OwnershipRuns.RestartComesUpIff | internal/ownership/store.go:134-161 | After any such run a restart through the loader comes up iff there is no file or it is within 8 MiB. |
| OwnershipRuns.RestartIsInvisibleIff | internal/ownership/store.go:134-161 | After any run whose replacements all completed, a restart brings back the very map in memory iff no file was ever written or that map's snapshot is within 8 MiB; otherwise the daemon stays down. |
| OwnershipRuns.AuthorIsRememberedUntilExpiry | internal/ownership/store.go:96-132 | From a put on, through any puts of other messages, lookups, deaths, power losses and restarts, whenever the daemon is up the message is answered with its author until it expires and with nobody after. |
| OwnershipRuns.LastPutIsAnswered | internal/ownership/store.go:96-132 | Over any run whose replacements complete, deaths, power losses and restarts included, a message is answered with the provider of its last put until that put's lifetime is over, in whole seconds, and with nobody after. |
| OwnershipRuns.NeverPutIsNobody | internal/ownership/store.go:113-132 | A message that was never put is answered with nobody. |
| OwnershipRuns.PutsAloneCanPreventARestart | internal/ownership/store.go:96-161 | Successful puts of enough different messages, whatever they are, leave a file the daemon refuses to start from. |
| OwnershipRuns.SomePutsPreventARestart | internal/ownership/store.go:96-161 | Concrete run: 155345 puts. |
| OwnershipStore.Collect | internal/ownership/store.go:164-171 | In any order of visiting, one item per owner. |
| OwnershipStore.SortByReference | internal/ownership/store.go:172-172 | The same items in increasing order of reference. |
| OwnershipStore.Store.Open | internal/ownership/store.go:54-77 | Starts with the map the file lists, or empty without a file; refuses if the file does not load. |
| OwnershipStore.Store.PersistLocked | internal/ownership/store.go:163-218 | Sorts and then takes the actions of the replacement one by one, as far as they get: the disk is that of the replacement of the map's snapshot. |
| OwnershipStore.Store.Put | internal/ownership/store.go:96-111 | Memory and disk change as in the run model, also when the replacement fails; the answer says which. |
| OwnershipStore.Store.Lookup | internal/ownership/store.go:113-132 | The unexpired author; an expired entry is dropped and that is persisted. |

## Left out

- AtMostOneMessage: a send is taken to take effect, if at all, no later than one send timeout after the clock reading of its retry check; its call context starts a little after that reading, and a request already on the wire could land later still.
- AtMostOneFollowUpIff: likewise, a follow-up takes effect, and its call returns, no later than its timeout after the attempt began.
- CardShowsTheShadow: shadow and card are compared while the phase is Streaming; Finish clears the shadow answer and Replace updates the shadow timeline only at its end.
- SequenceIsGapFree: sequence numbers are unbounded; the source's int32 would need over two thousand million mutations of one card, at most eight a second, inside one response lifetime.
- OneSendInFlightIffEntriesOutliveSends: every send is taken to return by its deadline, as its context makes it.
- SnapshotCandidates: histories are finite; an endless row of empty pages with `has_more` makes the source loop forever.
- FramingRoundTrips: the receiver is written from the documented framing; the reading client lives in the provider, outside this repository.
- StreamOfAResponse: the stream is what is built; an append that fails at Feishu is dropped, by design. A retried start gets a fresh progress state, so the claims are per state.
- AgentResponse, AgentDelivery, ConversationRoute: operation records are datatype values in a map field, not objects on the heap, so aliasing of a record is not modelled.
- The 125 ms mutation clock of a card and its cancelled wait: the wait appears only as a call that was not issued.
- Progress messages and reactions inside Update and Finish: they change no response field and are modelled on their own or not at all.
- Looking up a response or a backend, and app permissions: configuration lookups; delivery and route permissions appear as inputs.
- Strings are measured in characters where the source counts bytes (except snapshot text), and are taken as already trimmed.
- A follow-up or notification sent in several parts counts as one send.
- The brokers share the registry's clock reading within one dispatch; the source reads the clock again in each.
- The conversation-to-application conflict of the agent broker is an input of a dispatch, and the grant a dispatch gives its receivers is modelled on the conversation route alone (`RecordConversation`).
- Command responses, card actions and reaction events of the brokers: they keep no invariant the theorems use, but for the grant a card action extends (`RefreshConversation`).
- Parsing of message content, media type detection, card JSON, card action digests, markdown splitting: opaque inputs.
- The trigger-only lookup of a delivery without a thread: one candidate through the same assembly.
- JSON encoding of the ownership file: a file lists items and has a size, an arbitrary function of them; `SomePutsPreventARestart` needs of it only that a valid item takes at least 54 bytes, its field names and one character for each field.
- The state directory: temporary files left by dead processes, permissions and errors while reading play no part; what a power loss can take is any unsynced byte and any unsynced rename.
- Redaction, logging, readiness, configuration, authentication, image uploads, script execution, generated protobuf code and all transport plumbing.
