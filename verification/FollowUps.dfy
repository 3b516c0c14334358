/**
  The follow-up ledger of one conversation: who may send, which operation holds which handle,
  and what a failed send allows next. Provider calls interleave freely between begin and settle.
*/
module FollowUps {
  import opened Options
  import opened MessageWindow

  /** Raw operation ids are short; the scoped key is longer than any of them, so the two never meet. */
  datatype Key = Raw(operationId: string) | Scoped(provider: string, operationId: string)

  datatype Record = Record(
    provider: string, fingerprint: string, followUpId: string,
    pending: bool, complete: bool, ambiguousAt: Option<int>)

  /** `grants` maps each provider spoken to here to the moment its grant lapses. */
  datatype Ledger = Ledger(grants: map<string, int>, operations: map<Key, Record>, expiresAt: int)

  /** Either no Feishu answer was decoded, or Feishu rejected the message. */
  datatype SendFailure = Unanswered | ApiRejected(retryable: bool, httpStatus: int)

  predicate IsRetryable(f: SendFailure) { f.Unanswered? || f.retryable }

  predicate IsAmbiguous(f: SendFailure) { f.Unanswered? || f.httpStatus >= 500 }

  datatype SendOutcome = Delivered | Failed(failure: SendFailure)

  datatype FollowUpError = UnknownConversation | OperationConflict | OperationInFlight | SendRetryExpired | Internal

  datatype BeginReply = Send(followUpId: string) | Replay(followUpId: string) | Refused(code: FollowUpError)

  datatype Config = Config(ttl: int, sendTimeout: int)

  function Timeout(c: Config): int { if c.sendTimeout < 0 then 0 else c.sendTimeout }

  /** How long a route is kept from the last begin: one lifetime, and one send at least. */
  function Retain(c: Config): int { if c.ttl < c.sendTimeout then c.sendTimeout else c.ttl }

  /** A provider's own scoped record first, then the raw id unless another provider holds it. */
  function OperationKey(l: Ledger, provider: string, operationId: string): Key {
    if Scoped(provider, operationId) in l.operations then Scoped(provider, operationId)
    else if Raw(operationId) !in l.operations
            || l.operations[Raw(operationId)].provider == "" || l.operations[Raw(operationId)].provider == provider
    then Raw(operationId)
    else Scoped(provider, operationId)
  }

  predicate Granted(l: Ledger, provider: string, now: int) {
    provider in l.grants && now < l.grants[provider]
  }

  /** Admits the caller, and keeps the route for at least one lifetime and one send from now. */
  function LookupAndPin(l: Ledger, c: Config, provider: string, operationId: string, now: int): Option<Ledger> {
    var key := OperationKey(l, provider, operationId);
    if (key !in l.operations || (l.operations[key].provider != "" && l.operations[key].provider != provider))
       && !Granted(l, provider, now)
    then None
    else
      var retainUntil := now + Retain(c);
      Some(if l.expiresAt < retainUntil then l.(expiresAt := retainUntil) else l)
  }

  datatype Begun = Begun(ledger: Ledger, reply: BeginReply)

  function Begin(l: Ledger, c: Config, provider: string, operationId: string, fingerprint: string, now: int,
                 handle: Option<string>): Begun
  {
    var key := OperationKey(l, provider, operationId);
    if key in l.operations then
      var owner := if l.operations[key].provider == "" then provider else l.operations[key].provider;
      var op := l.operations[key].(provider := owner);
      var adopted := l.(operations := l.operations[key := op]);
      if op.fingerprint != fingerprint then Begun(adopted, Refused(OperationConflict))
      else if op.complete then Begun(adopted, Replay(op.followUpId))
      else if op.pending then Begun(adopted, Refused(OperationInFlight))
      else if RetryWindowExhausted(now, c.sendTimeout, op.ambiguousAt) then Begun(adopted, Refused(SendRetryExpired))
      else Begun(l.(operations := l.operations[key := op.(pending := true)]), Send(op.followUpId))
    else if !Granted(l, provider, now) then Begun(l, Refused(UnknownConversation))
    else if handle.None? then Begun(l, Refused(Internal))
    else
      Begun(l.(operations := l.operations[key := Record(provider, fingerprint, handle.value, true, false, None)]),
        Send(handle.value))
  }

  function FollowUp(l: Ledger, c: Config, provider: string, operationId: string, fingerprint: string, now: int,
                    handle: Option<string>): Begun
  {
    var pinned := LookupAndPin(l, c, provider, operationId, now);
    if pinned.None? then Begun(l, Refused(UnknownConversation))
    else Begin(pinned.value, c, provider, operationId, fingerprint, now, handle)
  }

  function Commit(l: Ledger, provider: string, operationId: string): Ledger {
    var key := OperationKey(l, provider, operationId);
    if key in l.operations
    then l.(operations := l.operations[key := l.operations[key].(pending := false, complete := true)])
    else l
  }

  function Abort(l: Ledger, provider: string, operationId: string, f: SendFailure, now: int): Ledger {
    var key := OperationKey(l, provider, operationId);
    if key !in l.operations then l
    else
      var op := l.operations[key].(pending := false);
      if IsAmbiguous(f) then
        var since := if op.ambiguousAt.None? then Some(now) else op.ambiguousAt;
        l.(operations := l.operations[key := op.(ambiguousAt := since)])
      else if IsRetryable(f) then l.(operations := l.operations[key := op])
      else if op.ambiguousAt.None? then l.(operations := l.operations - {key})
      else l.(operations := l.operations[key := op])
  }

  /** A delivered event grants each of its receivers for one lifetime and keeps the route as long. */
  function Grant(l: Ledger, c: Config, receivers: set<string>, now: int): Ledger {
    if receivers == {} then l
    else
      var until := now + c.ttl;
      l.(grants := l.grants + map p | p in receivers :: until,
         expiresAt := if l.expiresAt < until then until else l.expiresAt)
  }

  /** A later event of a provider, such as a card action, extends a grant it has; it never makes a route. */
  function Refresh(l: Ledger, c: Config, provider: string, now: int): Ledger {
    if provider in l.grants then Grant(l, c, {provider}, now) else l
  }

  /** What is left at `now`: a route past its expiry is forgotten, grants and operations included. */
  function Pruned(l: Ledger, now: int): Ledger { if l.expiresAt < now then Ledger(map[], map[], l.expiresAt) else l }

  // ---------------------------------------------------------------- interleavings

  datatype Caller = Caller(provider: string, operationId: string)

  datatype Flight = Flight(handle: string, fingerprint: string, startedAt: int)

  datatype Ended = Ended(caller: Caller, handle: string, fingerprint: string, startedAt: int, endedAt: int,
                         outcome: SendOutcome, landsAt: Option<int>)

  /** `born` is the last moment at which an expired route was found and forgotten. */
  datatype World = World(ledger: Ledger, flights: map<Caller, Flight>, ended: seq<Ended>, used: set<string>,
                         born: int, clock: int)

  datatype Event =
    | Asks(caller: Caller, fingerprint: string, at: int, handle: Option<string>)
    | Settles(caller: Caller, at: int, outcome: SendOutcome, landsAt: Option<int>)
    | Speaks(receivers: set<string>, at: int)
    | Acts(provider: string, at: int)

  /**
    Time moves on, but past no deadline of a send under way; handles are fresh, and only a caller
    with a send under way settles one.
  */
  ghost predicate Possible(w: World, c: Config, e: Event) {
    && w.clock <= e.at
    && (forall caller :: caller in w.flights ==> e.at <= w.flights[caller].startedAt + Timeout(c))
    && (e.Asks? ==> e.caller.provider != "" && (e.handle.Some? ==> e.handle.value !in w.used))
    && (e.Settles? ==>
          && e.caller in w.flights
          && (e.outcome.Delivered? ==> e.landsAt.Some?)
          && (e.outcome.Failed? && e.outcome.failure.ApiRejected? && e.outcome.failure.httpStatus < 500 ==>
                e.landsAt.None?)
          && (e.landsAt.Some? ==>
                w.flights[e.caller].startedAt <= e.landsAt.value <= w.flights[e.caller].startedAt + Timeout(c)))
  }

  /** A lookup and a dispatch both forget an expired route first. */
  function Expire(w: World, at: int): (v: World)
    ensures v.flights == w.flights && v.ended == w.ended && v.used == w.used
  {
    if w.ledger.expiresAt < at then w.(ledger := Pruned(w.ledger, at), born := at, clock := at) else w
  }

  function Step(w: World, c: Config, e: Event): World {
    if e.Settles? then Act(w, c, e) else Act(Expire(w, e.at), c, e)
  }

  /** What an event does to a route that has not expired. */
  function Act(w: World, c: Config, e: Event): World {
    match e
    case Asks(caller, fingerprint, at, handle) =>
      var out := FollowUp(w.ledger, c, caller.provider, caller.operationId, fingerprint, at, handle);
      World(out.ledger,
            if out.reply.Send? then w.flights[caller := Flight(out.reply.followUpId, fingerprint, at)] else w.flights,
            w.ended, if handle.Some? then w.used + {handle.value} else w.used, w.born, at)
    case Settles(caller, at, outcome, landsAt) =>
      if caller !in w.flights then w
      else
        var ledger := if outcome.Delivered? then Commit(w.ledger, caller.provider, caller.operationId)
                      else Abort(w.ledger, caller.provider, caller.operationId, outcome.failure, at);
        World(ledger, w.flights - {caller},
              w.ended + [Ended(caller, w.flights[caller].handle, w.flights[caller].fingerprint,
                               w.flights[caller].startedAt, at, outcome, landsAt)],
              w.used, w.born, at)
    case Speaks(receivers, at) => w.(ledger := Grant(w.ledger, c, receivers, at), clock := at)
    case Acts(provider, at) => w.(ledger := Refresh(w.ledger, c, provider, at), clock := at)
  }

  ghost predicate PossibleRun(w: World, c: Config, events: seq<Event>)
    decreases |events|
  {
    events == [] || (Possible(w, c, events[0]) && PossibleRun(Step(w, c, events[0]), c, events[1..]))
  }

  function Run(w: World, c: Config, events: seq<Event>): World
    decreases |events|
  {
    if events == [] then w else Run(Step(w, c, events[0]), c, events[1..])
  }

  /** A conversation just recorded: nothing sent, nothing claimed. */
  function Recorded(clock: int, expiresAt: int): World {
    World(Ledger(map[], map[], expiresAt), map[], [], {}, clock, clock)
  }

  // ---------------------------------------------------------------- what every state keeps

  /** The record a caller's operation lives in, if it has one. */
  ghost predicate HeldAt(l: Ledger, caller: Caller, key: Key) {
    key in l.operations && l.operations[key].provider == caller.provider
    && (key == Raw(caller.operationId) || key == Scoped(caller.provider, caller.operationId))
  }

  /** Nothing of this send can have appeared in the chat. */
  predicate Refuted(e: Ended) {
    e.outcome.Failed? && e.outcome.failure.ApiRejected? && e.outcome.failure.httpStatus < 500
  }

  ghost predicate FlightOk(w: World, c: Config, caller: Caller)
    requires caller in w.flights
  {
    var key := OperationKey(w.ledger, caller.provider, caller.operationId);
    && caller.provider != "" && HeldAt(w.ledger, caller, key)
    && w.ledger.operations[key].pending
    && w.ledger.operations[key].followUpId == w.flights[caller].handle
    && w.born <= w.flights[caller].startedAt
    && w.flights[caller].startedAt + Retain(c) <= w.ledger.expiresAt
  }

  ghost predicate RecordOk(w: World, key: Key)
    requires key in w.ledger.operations
  {
    var op := w.ledger.operations[key];
    && op.provider != ""
    && (key.Scoped? ==> op.provider == key.provider)
    && (op.pending ==> Caller(op.provider, key.operationId) in w.flights && !op.complete)
    && op.followUpId in w.used
    && (key.Scoped? ==>
          !(Raw(key.operationId) in w.ledger.operations
            && w.ledger.operations[Raw(key.operationId)].provider == op.provider))
  }

  /** The record under this key carries the handle of a send that may have appeared. */
  ghost predicate Pins(l: Ledger, e: Ended, key: Key) {
    HeldAt(l, e.caller, key) && l.operations[key].followUpId == e.handle
    && (l.operations[key].complete || (l.operations[key].ambiguousAt.Some? && e.outcome.Failed?))
  }

  /** Such a send is pinned to its record until its lifetime is over and its route was forgotten. */
  ghost predicate EndedOk(w: World, c: Config, e: Ended) {
    || Refuted(e)
    || e.startedAt + Retain(c) < w.born
    || (e.startedAt + Retain(c) <= w.ledger.expiresAt && exists key :: Pins(w.ledger, e, key))
  }

  ghost predicate FlightsOk(w: World, c: Config) { forall caller :: caller in w.flights ==> FlightOk(w, c, caller) }

  ghost predicate RecordsOk(w: World) { forall key :: key in w.ledger.operations ==> RecordOk(w, key) }

  ghost predicate AllEndedOk(w: World, c: Config) { forall i :: 0 <= i < |w.ended| ==> EndedOk(w, c, w.ended[i]) }

  ghost predicate HandlesDiffer(w: World) {
    forall a, b :: a in w.ledger.operations && b in w.ledger.operations && a != b ==>
      w.ledger.operations[a].followUpId != w.ledger.operations[b].followUpId
  }

  ghost predicate Inv(w: World, c: Config) {
    w.born <= w.clock && FlightsOk(w, c) && RecordsOk(w) && AllEndedOk(w, c) && HandlesDiffer(w)
  }

  lemma RecordedInv(c: Config, clock: int, expiresAt: int)
    ensures Inv(Recorded(clock, expiresAt), c)
  {
  }

  lemma SendsKeepTheRoute(w: World, c: Config, at: int)
    requires Inv(w, c) && c.ttl > 0 && w.flights != map[]
    requires forall caller :: caller in w.flights ==> at <= w.flights[caller].startedAt + Timeout(c)
    ensures at <= w.ledger.expiresAt
  {
    var caller :| caller in w.flights;
    assert FlightOk(w, c, caller);
  }

  /** A route is forgotten only when no send of its callers is under way, and every one that ended is old. */
  lemma ExpireInv(w: World, c: Config, e: Event)
    requires Inv(w, c) && c.ttl > 0 && Possible(w, c, e)
    ensures Inv(Expire(w, e.at), c) && Possible(Expire(w, e.at), c, e)
  {
    if w.ledger.expiresAt < e.at {
      if w.flights != map[] { SendsKeepTheRoute(w, c, e.at); }
      var v := Expire(w, e.at);
      forall i | 0 <= i < |v.ended| ensures EndedOk(v, c, v.ended[i]) {
        assert EndedOk(w, c, w.ended[i]);
      }
    }
  }

  // ---------------------------------------------------------------- one caller at a time

  /** Only this caller's record, and this caller's send, may differ between the two states. */
  ghost predicate ChangesOnly(w: World, v: World, caller: Caller, key: Key) {
    && caller.provider != ""
    && (key == Raw(caller.operationId) || key == Scoped(caller.provider, caller.operationId))
    && (forall k :: k != key ==> (k in v.ledger.operations <==> k in w.ledger.operations))
    && (forall k :: k != key && k in w.ledger.operations ==> v.ledger.operations[k] == w.ledger.operations[k])
    && (key in w.ledger.operations ==> w.ledger.operations[key].provider == caller.provider)
    && (key in v.ledger.operations ==> v.ledger.operations[key].provider == caller.provider)
    && (forall x :: x != caller ==> (x in v.flights <==> x in w.flights))
    && (forall x :: x != caller && x in w.flights ==> v.flights[x] == w.flights[x])
    && v.ledger.expiresAt >= w.ledger.expiresAt
    && w.used <= v.used && v.born == w.born && w.clock <= v.clock
  }

  /** What the record pins stays pinned. */
  ghost predicate KeepsThePin(l: Ledger, m: Ledger, key: Key) {
    key in l.operations && (l.operations[key].complete || l.operations[key].ambiguousAt.Some?) ==>
      && key in m.operations && m.operations[key].followUpId == l.operations[key].followUpId
      && (m.operations[key].complete || (!l.operations[key].complete && m.operations[key].ambiguousAt.Some?))
  }

  /** The key a caller is led to is its own record or a free place, and it has no other record. */
  lemma KeyIsOwnOrFree(w: World, caller: Caller)
    requires RecordsOk(w)
    ensures var key := OperationKey(w.ledger, caller.provider, caller.operationId);
      && (key == Raw(caller.operationId) || key == Scoped(caller.provider, caller.operationId))
      && (key in w.ledger.operations ==> w.ledger.operations[key].provider == caller.provider)
      && (forall k :: HeldAt(w.ledger, caller, k) ==> k == key)
  {
    var key := OperationKey(w.ledger, caller.provider, caller.operationId);
    if key in w.ledger.operations { assert RecordOk(w, key); }
    forall k | HeldAt(w.ledger, caller, k) ensures k == key { assert RecordOk(w, k); }
  }

  /** Whatever one caller does, every other caller with a send under way is led to the same record. */
  lemma OthersKeepTheirKey(w: World, v: World, c: Config, caller: Caller, key: Key, other: Caller)
    requires FlightsOk(w, c) && ChangesOnly(w, v, caller, key) && other in w.flights && other != caller
    ensures OperationKey(v.ledger, other.provider, other.operationId)
      == OperationKey(w.ledger, other.provider, other.operationId)
    ensures FlightOk(v, c, other)
  {
    assert FlightOk(w, c, other);
  }

  lemma OthersKeepTheirRecords(w: World, v: World, caller: Caller, key: Key)
    requires RecordsOk(w) && ChangesOnly(w, v, caller, key)
    requires key == OperationKey(w.ledger, caller.provider, caller.operationId)
    requires key in v.ledger.operations ==> RecordOk(v, key)
    ensures RecordsOk(v)
  {
    forall k | k in v.ledger.operations ensures RecordOk(v, k) {
      if k != key { assert RecordOk(w, k); }
    }
  }

  lemma EndedKeepTheirHandle(w: World, v: World, c: Config, caller: Caller, key: Key)
    requires AllEndedOk(w, c) && RecordsOk(w) && ChangesOnly(w, v, caller, key)
    requires KeepsThePin(w.ledger, v.ledger, key)
    ensures forall i :: 0 <= i < |w.ended| ==> EndedOk(v, c, w.ended[i])
  {
    forall i | 0 <= i < |w.ended| ensures EndedOk(v, c, w.ended[i]) {
      assert EndedOk(w, c, w.ended[i]);
      if !Refuted(w.ended[i]) && w.ended[i].startedAt + Retain(c) >= w.born {
        var k :| Pins(w.ledger, w.ended[i], k);
        assert Pins(v.ledger, w.ended[i], k);
      }
    }
  }

  /** A step of one caller keeps the invariant if that caller's own record and send are in order. */
  lemma StepOfOneCaller(w: World, v: World, c: Config, caller: Caller, key: Key)
    requires Inv(w, c) && ChangesOnly(w, v, caller, key)
    requires key == OperationKey(w.ledger, caller.provider, caller.operationId)
    requires caller in v.flights ==> FlightOk(v, c, caller)
    requires key in v.ledger.operations ==> RecordOk(v, key)
    requires KeepsThePin(w.ledger, v.ledger, key)
    requires key in v.ledger.operations ==>
      if key in w.ledger.operations then v.ledger.operations[key].followUpId == w.ledger.operations[key].followUpId
      else v.ledger.operations[key].followUpId !in w.used
    requires v.ended == w.ended
      || (|v.ended| == |w.ended| + 1 && v.ended[..|w.ended|] == w.ended && EndedOk(v, c, v.ended[|w.ended|]))
    ensures Inv(v, c)
  {
    hide FlightOk, RecordOk, EndedOk;
    forall other | other in v.flights ensures FlightOk(v, c, other) {
      if other != caller { OthersKeepTheirKey(w, v, c, caller, key, other); }
    }
    OthersKeepTheirRecords(w, v, caller, key);
    EndedKeepTheirHandle(w, v, c, caller, key);
    HandlesStayDifferent(w, v, caller, key);
  }

  lemma HandlesStayDifferent(w: World, v: World, caller: Caller, key: Key)
    requires HandlesDiffer(w) && RecordsOk(w) && ChangesOnly(w, v, caller, key)
    requires key in v.ledger.operations ==>
      if key in w.ledger.operations then v.ledger.operations[key].followUpId == w.ledger.operations[key].followUpId
      else v.ledger.operations[key].followUpId !in w.used
    ensures HandlesDiffer(v)
  {
    forall k | k in w.ledger.operations ensures w.ledger.operations[k].followUpId in w.used { assert RecordOk(w, k); }
  }

  /** A begin touches the caller's own record only, and claims it only if no send is under way there. */
  lemma BeginEffect(l: Ledger, c: Config, caller: Caller, fingerprint: string, now: int, handle: Option<string>)
    requires c.ttl > 0 && caller.provider != ""
    requires var key := OperationKey(l, caller.provider, caller.operationId);
      key in l.operations ==> l.operations[key].provider == caller.provider
    ensures var key := OperationKey(l, caller.provider, caller.operationId);
      var out := FollowUp(l, c, caller.provider, caller.operationId, fingerprint, now, handle);
      && out.ledger.expiresAt >= l.expiresAt
      && (!out.reply.Send? ==> out.ledger.operations == l.operations)
      && (out.reply.Send? ==>
            && out.ledger.expiresAt >= now + Retain(c)
            && (key in l.operations ==>
                  !l.operations[key].pending && !l.operations[key].complete
                  && l.operations[key].followUpId == out.reply.followUpId
                  && l.operations[key].fingerprint == fingerprint
                  && out.ledger.operations == l.operations[key := l.operations[key].(pending := true)])
            && (key !in l.operations ==>
                  handle == Some(out.reply.followUpId)
                  && out.ledger.operations
                     == l.operations[
                          key := Record(caller.provider, fingerprint, out.reply.followUpId, true, false, None)]))
  {
  }

  lemma InvAt(w: World, c: Config, caller: Caller, key: Key)
    requires Inv(w, c)
    ensures RecordsOk(w) && w.born <= w.clock
    ensures key in w.ledger.operations ==> RecordOk(w, key)
    ensures caller in w.flights ==> FlightOk(w, c, caller)
  {
  }

  lemma AsksInv(w: World, c: Config, e: Event)
    requires Inv(w, c) && c.ttl > 0 && e.Asks? && Possible(w, c, e)
    ensures Inv(Act(w, c, e), c)
  {
    hide Inv, RecordsOk, FollowUp;
    var v, caller := Act(w, c, e), e.caller;
    var key := OperationKey(w.ledger, caller.provider, caller.operationId);
    InvAt(w, c, caller, key);
    KeyIsOwnOrFree(w, caller);
    BeginEffect(w.ledger, c, caller, e.fingerprint, e.at, e.handle);
    AsksKeepsKey(w, v, caller, key);
    assert ChangesOnly(w, v, caller, key);
    assert caller in v.flights ==> FlightOk(v, c, caller);
    assert key in v.ledger.operations ==> RecordOk(v, key);
    hide ChangesOnly, FlightOk, RecordOk;
    StepOfOneCaller(w, v, c, caller, key);
  }

  lemma AsksKeepsKey(w: World, v: World, caller: Caller, key: Key)
    requires key == OperationKey(w.ledger, caller.provider, caller.operationId)
    requires key in w.ledger.operations ==> w.ledger.operations[key].provider == caller.provider
    requires v.ledger.operations == w.ledger.operations
      || (key in v.ledger.operations && v.ledger.operations == w.ledger.operations[key := v.ledger.operations[key]]
          && v.ledger.operations[key].provider == caller.provider)
    ensures OperationKey(v.ledger, caller.provider, caller.operationId) == key
  {
  }

  /** Settling touches the caller's own record only: the one its begin claimed. */
  lemma SettleEffect(l: Ledger, caller: Caller, outcome: SendOutcome, now: int)
    requires OperationKey(l, caller.provider, caller.operationId) in l.operations
    ensures var key := OperationKey(l, caller.provider, caller.operationId);
      var op := l.operations[key];
      var out := if outcome.Delivered? then Commit(l, caller.provider, caller.operationId)
                 else Abort(l, caller.provider, caller.operationId, outcome.failure, now);
      && out.expiresAt == l.expiresAt
      && (out.operations == l.operations - {key}
          || (key in out.operations && out.operations == l.operations[key := out.operations[key]]
              && out.operations[key] == op.(pending := false, complete := out.operations[key].complete,
                                            ambiguousAt := out.operations[key].ambiguousAt)
              && (op.complete ==> out.operations[key].complete)
              && (op.ambiguousAt.Some? ==> out.operations[key].ambiguousAt.Some?)))
      && (key !in out.operations ==>
            outcome.Failed? && !IsRetryable(outcome.failure) && !IsAmbiguous(outcome.failure) && op.ambiguousAt.None?)
      && (outcome.Delivered? ==> key in out.operations && out.operations[key].complete)
      && (outcome.Failed? && IsAmbiguous(outcome.failure) ==>
        key in out.operations && out.operations[key].ambiguousAt.Some?)
  {
  }

  lemma SettledSendIsPinned(w: World, v: World, c: Config, e: Event, key: Key)
    requires e.Settles? && e.caller in w.flights && v == Act(w, c, e) && FlightOk(w, c, e.caller)
    requires key == OperationKey(w.ledger, e.caller.provider, e.caller.operationId)
    ensures |v.ended| == |w.ended| + 1 && v.ended[..|w.ended|] == w.ended && EndedOk(v, c, v.ended[|w.ended|])
  {
    hide Commit, Abort;
    SettleEffect(w.ledger, e.caller, e.outcome, e.at);
    var last := v.ended[|w.ended|];
    assert !Refuted(last) ==> Pins(v.ledger, last, key);
  }

  lemma SettleChangesOnlyItsCaller(w: World, v: World, c: Config, e: Event, key: Key)
    requires e.Settles? && e.caller in w.flights && FlightOk(w, c, e.caller) && v == Act(w, c, e) && w.clock <= e.at
    requires key == OperationKey(w.ledger, e.caller.provider, e.caller.operationId) && RecordOk(w, key)
    ensures ChangesOnly(w, v, e.caller, key)
    ensures key in v.ledger.operations ==>
      RecordOk(v, key) && v.ledger.operations[key].followUpId == w.ledger.operations[key].followUpId
    ensures KeepsThePin(w.ledger, v.ledger, key)
  {
    hide Commit, Abort;
    SettleEffect(w.ledger, e.caller, e.outcome, e.at);
  }

  lemma SettlesInv(w: World, c: Config, e: Event)
    requires Inv(w, c) && e.Settles? && Possible(w, c, e)
    ensures Inv(Act(w, c, e), c)
  {
    hide AllEndedOk, HandlesDiffer, Commit, Abort, ChangesOnly, EndedOk, KeepsThePin;
    var v, caller := Act(w, c, e), e.caller;
    var key := OperationKey(w.ledger, caller.provider, caller.operationId);
    KeyIsOwnOrFree(w, caller);
    assert FlightOk(w, c, caller) && RecordOk(w, key);
    hide FlightsOk, RecordsOk;
    SettleChangesOnlyItsCaller(w, v, c, e, key);
    SettledSendIsPinned(w, v, c, e, key);
    StepOfOneCaller(w, v, c, caller, key);
  }

  lemma GrantsInv(w: World, c: Config, e: Event)
    requires Inv(w, c) && (e.Speaks? || e.Acts?) && Possible(w, c, e)
    ensures Inv(Act(w, c, e), c)
  {
    hide Inv, RecordsOk, OperationKey;
    var v, nobody := Act(w, c, e), Caller("nobody", "nothing");
    var key := OperationKey(w.ledger, nobody.provider, nobody.operationId);
    InvAt(w, c, nobody, key);
    KeyIsOwnOrFree(w, nobody);
    GrantChangesNoRecord(w, c, e, nobody, key);
    StepOfOneCaller(w, v, c, nobody, key);
  }

  lemma GrantChangesNoRecord(w: World, c: Config, e: Event, nobody: Caller, key: Key)
    requires Inv(w, c) && (e.Speaks? || e.Acts?) && Possible(w, c, e) && nobody.provider != ""
    requires key == OperationKey(w.ledger, nobody.provider, nobody.operationId)
    ensures var v := Act(w, c, e);
      && (nobody in v.flights ==> FlightOk(v, c, nobody))
      && (key in v.ledger.operations ==> RecordOk(v, key))
      && v.ledger.operations == w.ledger.operations && v.ledger.expiresAt >= w.ledger.expiresAt
  {
    hide Inv, RecordsOk;
    InvAt(w, c, nobody, key);
  }

  lemma StepInv(w: World, c: Config, e: Event)
    requires Inv(w, c) && c.ttl > 0 && Possible(w, c, e)
    ensures Inv(Step(w, c, e), c)
  {
    hide Inv, Act, Expire, Possible;
    ExpireInv(w, c, e);
    match e
    case Asks(_, _, _, _) => AsksInv(Expire(w, e.at), c, e);
    case Settles(_, _, _, _) => SettlesInv(w, c, e);
    case Speaks(_, _) => GrantsInv(Expire(w, e.at), c, e);
    case Acts(_, _) => GrantsInv(Expire(w, e.at), c, e);
  }

  lemma {:induction false} RunInv(w: World, c: Config, events: seq<Event>)
    requires Inv(w, c) && c.ttl > 0 && PossibleRun(w, c, events)
    ensures Inv(Run(w, c, events), c)
    decreases |events|
  {
    hide Inv, Step;
    if events != [] {
      StepInv(w, c, events[0]);
      RunInv(Step(w, c, events[0]), c, events[1..]);
    }
  }

  // ---------------------------------------------------------------- main results

  /**
    In every state any interleaving can reach: a caller has at most one record, hence one live
    handle; a record is marked pending exactly while its caller has a send under way, and the
    key that caller's commit or abort will look up is the record its begin claimed.
  */
  lemma OneHandleAndOneSendPerCaller(c: Config, clock: int, expiresAt: int, events: seq<Event>)
    requires c.ttl > 0 && PossibleRun(Recorded(clock, expiresAt), c, events)
    ensures var w := Run(Recorded(clock, expiresAt), c, events);
      && (forall caller, a, b :: HeldAt(w.ledger, caller, a) && HeldAt(w.ledger, caller, b) ==> a == b)
      && (forall caller :: caller in w.flights ==>
            var key := OperationKey(w.ledger, caller.provider, caller.operationId);
            HeldAt(w.ledger, caller, key) && w.ledger.operations[key].pending
            && w.ledger.operations[key].followUpId == w.flights[caller].handle)
      && (forall key :: key in w.ledger.operations && w.ledger.operations[key].pending ==>
            Caller(w.ledger.operations[key].provider, key.operationId) in w.flights)
      && (forall caller :: caller in w.flights ==> w.flights[caller].startedAt + Timeout(c) <= w.ledger.expiresAt)
  {
    RecordedInv(c, clock, expiresAt);
    RunInv(Recorded(clock, expiresAt), c, events);
    var w := Run(Recorded(clock, expiresAt), c, events);
    forall caller, a, b | HeldAt(w.ledger, caller, a) && HeldAt(w.ledger, caller, b) ensures a == b {
      KeyIsOwnOrFree(w, caller);
    }
    forall caller | caller in w.flights
      ensures var key := OperationKey(w.ledger, caller.provider, caller.operationId);
        HeldAt(w.ledger, caller, key) && w.ledger.operations[key].pending
        && w.ledger.operations[key].followUpId == w.flights[caller].handle
        && w.flights[caller].startedAt + Timeout(c) <= w.ledger.expiresAt
    {
      assert FlightOk(w, c, caller);
    }
    forall key | key in w.ledger.operations && w.ledger.operations[key].pending
      ensures Caller(w.ledger.operations[key].provider, key.operationId) in w.flights
    {
      assert RecordOk(w, key);
    }
  }

  /** For a lifetime from a send that may have appeared, every send of its caller reuses its handle. */
  ghost predicate HandlesPinned(ended: seq<Ended>, c: Config) {
    forall i, j :: 0 <= i < j < |ended| && ended[i].caller == ended[j].caller && !Refuted(ended[i])
                   && ended[j].startedAt <= ended[i].startedAt + Retain(c) ==>
      ended[j].handle == ended[i].handle
  }

  lemma FlightKeepsThePinnedHandle(w: World, c: Config, caller: Caller, i: nat)
    requires Inv(w, c) && caller in w.flights && i < |w.ended| && w.ended[i].caller == caller && !Refuted(w.ended[i])
    requires w.flights[caller].startedAt <= w.ended[i].startedAt + Retain(c)
    ensures w.flights[caller].handle == w.ended[i].handle
  {
    assert FlightOk(w, c, caller) && EndedOk(w, c, w.ended[i]);
    var key :| Pins(w.ledger, w.ended[i], key);
    KeyIsOwnOrFree(w, caller);
  }

  lemma StepPinsHandles(w: World, c: Config, e: Event)
    requires Inv(w, c) && HandlesPinned(w.ended, c)
    ensures HandlesPinned(Step(w, c, e).ended, c)
  {
    hide Inv, Commit, Abort, FollowUp, Grant, Refresh, Expire;
    var v := Step(w, c, e);
    if e.Settles? && e.caller in w.flights {
      forall i | 0 <= i < |w.ended| && w.ended[i].caller == e.caller && !Refuted(w.ended[i])
                 && w.flights[e.caller].startedAt <= w.ended[i].startedAt + Retain(c)
        ensures w.ended[i].handle == v.ended[|w.ended|].handle
      {
        FlightKeepsThePinnedHandle(w, c, e.caller, i);
      }
    }
  }

  lemma {:induction false} RunPinsHandles(w: World, c: Config, events: seq<Event>)
    requires Inv(w, c) && c.ttl > 0 && HandlesPinned(w.ended, c) && PossibleRun(w, c, events)
    ensures HandlesPinned(Run(w, c, events).ended, c)
    decreases |events|
  {
    hide Inv, Step, Possible, HandlesPinned;
    if events != [] {
      StepInv(w, c, events[0]);
      StepPinsHandles(w, c, events[0]);
      RunPinsHandles(Step(w, c, events[0]), c, events[1..]);
    }
  }

  /**
    Within a lifetime a handle is replaced only after every send under it was definitively
    refused: of two sends of one caller begun no further apart, the later carries the handle of
    the earlier, hence its message UUID, unless nothing of the earlier can have appeared.
  */
  lemma HandleReplacedOnlyAfterRefusal(c: Config, clock: int, expiresAt: int, events: seq<Event>)
    requires c.ttl > 0 && PossibleRun(Recorded(clock, expiresAt), c, events)
    ensures HandlesPinned(Run(Recorded(clock, expiresAt), c, events).ended, c)
  {
    RecordedInv(c, clock, expiresAt);
    RunPinsHandles(Recorded(clock, expiresAt), c, events);
  }

  /**
    A completed operation answers every repetition with its handle and sends nothing for as long
    as its route is kept; once the route has expired the caller is unknown.
  */
  lemma CompletedFollowUpReplays(w: World, c: Config, caller: Caller, fingerprint: string, now: int,
                                 handle: Option<string>)
    requires Inv(w, c) && caller.provider != ""
    requires var key := OperationKey(w.ledger, caller.provider, caller.operationId);
      key in w.ledger.operations && w.ledger.operations[key].complete
    ensures var op := w.ledger.operations[OperationKey(w.ledger, caller.provider, caller.operationId)];
      var out := FollowUp(Pruned(w.ledger, now), c, caller.provider, caller.operationId, fingerprint, now, handle);
      if w.ledger.expiresAt < now then
        out.reply == Refused(UnknownConversation) && out.ledger.operations == map[]
      else
        && out.ledger.operations == w.ledger.operations
        && out.reply == if op.fingerprint == fingerprint then Replay(op.followUpId) else Refused(OperationConflict)
  {
    KeyIsOwnOrFree(w, caller);
    var key := OperationKey(w.ledger, caller.provider, caller.operationId);
    assert RecordOk(w, key);
    assert w.ledger.operations[key := w.ledger.operations[key]] == w.ledger.operations;
  }

  /**
    After any run, a caller whose send was delivered is answered, for at least a lifetime from the
    beginning of that send, with that send's handle or with a conflict: nothing is sent again.
  */
  lemma DeliveredFollowUpIsNotSentAgain(c: Config, clock: int, expiresAt: int, events: seq<Event>, i: nat,
                                        fingerprint: string, now: int, handle: Option<string>)
    requires c.ttl > 0 && PossibleRun(Recorded(clock, expiresAt), c, events)
    requires var w := Run(Recorded(clock, expiresAt), c, events);
      && i < |w.ended| && w.ended[i].outcome.Delivered?
      && w.clock <= now <= w.ended[i].startedAt + Retain(c)
    ensures var w := Run(Recorded(clock, expiresAt), c, events);
      var caller := w.ended[i].caller;
      var out := FollowUp(Pruned(w.ledger, now), c, caller.provider, caller.operationId, fingerprint, now, handle);
      out.reply == Replay(w.ended[i].handle) || out.reply == Refused(OperationConflict)
  {
    RecordedInv(c, clock, expiresAt);
    RunInv(Recorded(clock, expiresAt), c, events);
    var w := Run(Recorded(clock, expiresAt), c, events);
    var e := w.ended[i];
    assert EndedOk(w, c, e);
    var key :| Pins(w.ledger, e, key);
    assert RecordOk(w, key);
    KeyIsOwnOrFree(w, e.caller);
    CompletedFollowUpReplays(w, c, e.caller, fingerprint, now, handle);
  }

  // ---------------------------------------------------------------- the retry window

  /**
    The follow-up's retry clock is the moment the failure returned, not the moment the send
    began. A retry let through at `now`, after a first send begun at `startedAt` whose failure
    came back at `failedAt`, is sure to meet that first message inside Feishu's window exactly
    when the guard would also have passed with the clock at `startedAt`.
  */
  lemma RetryMeetsTheFirstMessageIff(c: Config, startedAt: int, failedAt: int, now: int)
    requires c.sendTimeout >= 0 && startedAt <= failedAt <= now
    requires !RetryWindowExhausted(now, c.sendTimeout, Some(failedAt))
    ensures (forall posted, effect ::
               startedAt <= posted <= startedAt + c.sendTimeout && now <= effect <= now + c.sendTimeout ==>
               posted <= effect ==> |Posted([Landing("m", posted), Landing("m", effect)])| == 1)
      <==> !RetryWindowExhausted(now, c.sendTimeout, Some(startedAt))
  {
    forall posted, effect
      ensures |Posted([Landing("m", posted), Landing("m", effect)])| == if effect < posted + WINDOW then 1 else 2
    {
      PostedPair("m", posted, effect);
    }
    if RetryWindowExhausted(now, c.sendTimeout, Some(startedAt)) {
      PostedPair("m", startedAt, now + c.sendTimeout);
    }
  }

  const DEFAULTS := Config(6 * 60 * 60 * 1000, 15 * 1000)
  const ANYONE := Caller("agent", "op")

  /** The first send is accepted at once but its answer is lost; the retry is let through too late. */
  const LATE_RETRY := [
    Speaks({"agent"}, 0),
    Asks(ANYONE, "text", 0, Some("fup_1")),
    Settles(ANYONE, 15000, Failed(Unanswered), Some(0)),
    Asks(ANYONE, "text", 3599000, Some("fup_2")),
    Settles(ANYONE, 3600000, Delivered, Some(3600000))]

  /** With the default configuration a possible run posts the same follow-up twice. */
  lemma LateRetryPostsTwice()
    ensures PossibleRun(Recorded(0, 0), DEFAULTS, LATE_RETRY)
    ensures var ended := Run(Recorded(0, 0), DEFAULTS, LATE_RETRY).ended;
      && |ended| == 2 && ended[0].landsAt.Some? && ended[1].landsAt.Some?
      && |Posted([Landing(ended[0].handle, ended[0].landsAt.value),
                  Landing(ended[1].handle, ended[1].landsAt.value)])| == 2
  {
    var w0 := Recorded(0, 0);
    var w1 := Step(w0, DEFAULTS, LATE_RETRY[0]);
    var w2 := Step(w1, DEFAULTS, LATE_RETRY[1]);
    assert w2.ledger.operations == map[Raw("op") := Record("agent", "text", "fup_1", true, false, None)];
    var w3 := Step(w2, DEFAULTS, LATE_RETRY[2]);
    assert w3.ledger.operations == map[Raw("op") := Record("agent", "text", "fup_1", false, false, Some(15000))];
    var w4 := Step(w3, DEFAULTS, LATE_RETRY[3]);
    assert w4.flights == map[ANYONE := Flight("fup_1", "text", 3599000)];
    var w5 := Step(w4, DEFAULTS, LATE_RETRY[4]);
    RunOfFive(w0, DEFAULTS, LATE_RETRY);
    assert w5.ended == [Ended(ANYONE, "fup_1", "text", 0, 15000, Failed(Unanswered), Some(0)),
                        Ended(ANYONE, "fup_1", "text", 3599000, 3600000, Delivered, Some(3600000))];
    hide Step;
    PostedPair("fup_1", 0, 3600000);
  }

  /** Delivered at once; seven hours later the conversation speaks again, and so does the caller. */
  const FORGOTTEN := [
    Speaks({"agent"}, 0),
    Asks(ANYONE, "text", 0, Some("fup_1")),
    Settles(ANYONE, 1000, Delivered, Some(1000)),
    Speaks({"agent"}, 7 * 60 * 60 * 1000),
    Asks(ANYONE, "text", 7 * 60 * 60 * 1000, Some("fup_2"))]

  /** Past its lifetime a delivered follow-up is forgotten, and its repetition is sent under a new handle. */
  lemma ForgottenFollowUpIsSentAgain()
    ensures PossibleRun(Recorded(0, 0), DEFAULTS, FORGOTTEN)
    ensures var w := Run(Recorded(0, 0), DEFAULTS, FORGOTTEN);
      && w.ended == [Ended(ANYONE, "fup_1", "text", 0, 1000, Delivered, Some(1000))]
      && w.flights == map[ANYONE := Flight("fup_2", "text", 7 * 60 * 60 * 1000)]
  {
    var w0 := Recorded(0, 0);
    var w1 := Step(w0, DEFAULTS, FORGOTTEN[0]);
    var w2 := Step(w1, DEFAULTS, FORGOTTEN[1]);
    assert w2.ledger.operations == map[Raw("op") := Record("agent", "text", "fup_1", true, false, None)];
    var w3 := Step(w2, DEFAULTS, FORGOTTEN[2]);
    assert w3.ledger.operations == map[Raw("op") := Record("agent", "text", "fup_1", false, true, None)];
    var w4 := Step(w3, DEFAULTS, FORGOTTEN[3]);
    assert w4.ledger.operations == map[] && w4.flights == map[];
    RunOfFive(w0, DEFAULTS, FORGOTTEN);
  }

  lemma RunOfFive(w: World, c: Config, e: seq<Event>)
    requires |e| == 5
    ensures var w1 := Step(w, c, e[0]); var w2 := Step(w1, c, e[1]); var w3 := Step(w2, c, e[2]);
      var w4 := Step(w3, c, e[3]);
      && Run(w, c, e) == Step(w4, c, e[4])
      && (PossibleRun(w, c, e) <==> Possible(w, c, e[0]) && Possible(w1, c, e[1]) && Possible(w2, c, e[2])
                                    && Possible(w3, c, e[3]) && Possible(w4, c, e[4]))
  {
    hide Step, Possible;
    var w1 := Step(w, c, e[0]);
    var w2 := Step(w1, c, e[1]);
    var w3 := Step(w2, c, e[2]);
    var w4 := Step(w3, c, e[3]);
    assert e[1..][1..] == e[2..] && e[2..][1..] == e[3..] && e[3..][1..] == e[4..] && e[4..][1..] == [];
    assert Run(w4, c, e[4..]) == Step(w4, c, e[4]);
    assert Run(w3, c, e[3..]) == Run(w4, c, e[4..]);
    assert Run(w2, c, e[2..]) == Run(w3, c, e[3..]);
    assert PossibleRun(w4, c, e[4..]) == Possible(w4, c, e[4]);
    assert PossibleRun(w3, c, e[3..]) == (Possible(w3, c, e[3]) && PossibleRun(w4, c, e[4..]));
    assert PossibleRun(w2, c, e[2..]) == (Possible(w2, c, e[2]) && PossibleRun(w3, c, e[3..]));
  }
}
