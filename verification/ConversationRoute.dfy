/** The conversation route object: grants, operations and expiry changed in place under its mutex. */
module ConversationRoutes {
  import opened Options
  import opened MessageWindow
  import opened FollowUps

  class ConversationRoute {
    const app: string
    var providers: map<string, int>
    var operations: map<Key, Record>
    var expiresAt: int

    constructor (app: string, expiresAt: int)
      ensures this.app == app && State() == Ledger(map[], map[], expiresAt)
    {
      this.app, providers, operations, this.expiresAt := app, map[], map[], expiresAt;
    }

    ghost function State(): Ledger
      reads this
    {
      Ledger(providers, operations, expiresAt)
    }

    /** Whether the broker forgets this route before it looks anything up at `now`. */
    method Expired(now: int) returns (gone: bool)
      ensures Pruned(State(), now) == if gone then Ledger(map[], map[], expiresAt) else State()
      ensures gone <==> State().expiresAt < now
    {
      return now > expiresAt;
    }

    /** The key under which this caller's operation is, or would be, recorded. */
    method FollowUpOperationKey(provider: string, operationId: string) returns (key: Key)
      ensures key == OperationKey(State(), provider, operationId)
    {
      var scoped := Scoped(provider, operationId);
      if scoped in operations { return scoped; }
      var raw := Raw(operationId);
      if raw !in operations || operations[raw].provider == "" || operations[raw].provider == provider { return raw; }
      return scoped;
    }

    method LookupAndPinConversation(c: Config, provider: string, operationId: string, now: int) returns (ok: bool)
      modifies this`expiresAt
      ensures var pinned := LookupAndPin(old(State()), c, provider, operationId, now);
        ok == pinned.Some? && State() == if pinned.Some? then pinned.value else old(State())
    {
      var key := FollowUpOperationKey(provider, operationId);
      var granted := provider in providers && now < providers[provider];
      if (key !in operations || (operations[key].provider != "" && operations[key].provider != provider)) && !granted {
        return false;
      }
      var retainFor := c.ttl;
      if retainFor < c.sendTimeout { retainFor := c.sendTimeout; }
      if expiresAt < now + retainFor { expiresAt := now + retainFor; }
      return true;
    }

    /** Claims the operation for one send, or says why not; a completed one replays its handle. */
    method BeginFollowUp(c: Config, provider: string, operationId: string, fingerprint: string, now: int,
                         handle: Option<string>)
      returns (reply: BeginReply)
      modifies this`operations
      ensures var out := Begin(old(State()), c, provider, operationId, fingerprint, now, handle);
        State() == out.ledger && reply == out.reply
    {
      var key := FollowUpOperationKey(provider, operationId);
      if key in operations {
        if operations[key].provider == "" { operations := operations[key := operations[key].(provider := provider)]; }
        assert old(operations)[key := operations[key]] == operations;
        var op := operations[key];
        if op.fingerprint != fingerprint { return Refused(OperationConflict); }
        if op.complete { return Replay(op.followUpId); }
        if op.pending { return Refused(OperationInFlight); }
        if RetryWindowExhausted(now, c.sendTimeout, op.ambiguousAt) { return Refused(SendRetryExpired); }
      } else {
        if provider !in providers || now >= providers[provider] { return Refused(UnknownConversation); }
        if handle.None? { return Refused(Internal); }
        operations := operations[key := Record(provider, fingerprint, handle.value, false, false, None)];
      }
      operations := operations[key := operations[key].(pending := true)];
      return Send(operations[key].followUpId);
    }

    method CommitFollowUp(provider: string, operationId: string)
      modifies this`operations
      ensures State() == Commit(old(State()), provider, operationId)
    {
      var key := FollowUpOperationKey(provider, operationId);
      if key in operations {
        operations := operations[key := operations[key].(pending := false, complete := true)];
      }
    }

    method AbortFollowUp(provider: string, operationId: string, f: SendFailure, now: int)
      modifies this`operations
      ensures State() == Abort(old(State()), provider, operationId, f, now)
    {
      var key := FollowUpOperationKey(provider, operationId);
      if key !in operations { return; }
      operations := operations[key := operations[key].(pending := false)];
      if IsAmbiguous(f) {
        if operations[key].ambiguousAt.None? {
          operations := operations[key := operations[key].(ambiguousAt := Some(now))];
        }
      } else if IsRetryable(f) {
      } else if operations[key].ambiguousAt.None? {
        operations := operations - {key};
      }
    }

    /** One more of the receivers granted. */
    static lemma GrantedOneMore(before: map<string, int>, some: set<string>, p: string, until: int)
      ensures (before + map q | q in some :: until)[p := until] == before + map q | q in some + {p} :: until
    {
    }

    /**
      A delivered event grants each receiver, in whatever order, and extends the route; an event
      of another application leaves it alone.
    */
    method RecordConversation(c: Config, app: string, receivers: set<string>, now: int)
      modifies this`providers, this`expiresAt
      ensures State() == if app == this.app then Grant(old(State()), c, receivers, now) else old(State())
    {
      if receivers == {} || app != this.app { return; }
      var until := now + c.ttl;
      var left := receivers;
      ghost var done: set<string> := {};
      while left != {}
        invariant left <= receivers && done == receivers - left && expiresAt == old(expiresAt)
        invariant providers == old(providers) + map p | p in done :: until
        decreases left
      {
        var p :| p in left;
        GrantedOneMore(old(providers), done, p, until);
        providers := providers[p := until];
        left := left - {p};
        done := done + {p};
      }
      assert done == receivers;
      if expiresAt < until { expiresAt := until; }
    }

    /** A grant the provider has is extended by its later events; nobody gets a new one. */
    method RefreshConversation(c: Config, provider: string, now: int)
      modifies this`providers, this`expiresAt
      ensures State() == Refresh(old(State()), c, provider, now)
    {
      if provider !in providers { return; }
      providers := providers[provider := now + c.ttl];
      if expiresAt < now + c.ttl { expiresAt := now + c.ttl; }
    }
  }
}
