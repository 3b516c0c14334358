/**
  The order in which a response issues its calls, over whole runs, whatever the network does and
  whatever ids a provider uses: the response drives the channel of CardChannel by its rules.
*/
module CardSequence {
  import opened Options
  import opened CardFailures
  import opened CardChannel
  import opened ResponseProtocol
  import opened ResponseProofs

  function StartedSession(markdown: string, timeline: TimelineState): Session {
    Session(Opened(markdown, timeline), [])
  }

  /** The planned call whose last answer left its fate unknown. */
  function DoubtOf(r: Response): Option<Call> {
    if r.pending.Some? && r.pending.value in r.ops && r.ops[r.pending.value].Open?
    then
      var op := r.ops[r.pending.value];
      if op.doubt && op.acked < |op.plan| then Some(op.plan[op.acked]) else None
    else None
  }

  /** The numbers, the doubt and the end of the response are those of its log. */
  ghost predicate Sequenced(r: Response, ch: Channel) {
    |ch.acked| == r.nextSequence && ch.doubt == DoubtOf(r) && ch.closed == GaveUp(r)
  }

  /** The channel after further attempts, read from the first one on. */
  function Continue(ch: Channel, issued: seq<Attempt>): Channel
    decreases |issued|
  {
    if issued == [] then ch else Continue(After(ch, issued[0]), issued[1..])
  }

  predicate AllAllowed(ch: Channel, issued: seq<Attempt>)
    decreases |issued|
  {
    issued == [] || (Allowed(ch, issued[0].call) && AllAllowed(After(ch, issued[0]), issued[1..]))
  }

  lemma {:induction false} ContinueIsReplay(log: seq<Attempt>, issued: seq<Attempt>)
    ensures Replay(log + issued) == Continue(Replay(log), issued)
    ensures Disciplined(log) && AllAllowed(Replay(log), issued) ==> Disciplined(log + issued)
    decreases |issued|
  {
    if issued == [] {
      assert log + issued == log;
    } else {
      assert (log + [issued[0]])[..|log|] == log;
      ContinueIsReplay(log + [issued[0]], issued[1..]);
      assert log + [issued[0]] + issued[1..] == log + issued;
    }
  }

  /** An open operation that stands at a call. */
  ghost predicate StandsAtACall(r: Response, id: string) {
    Inv(r) && id in r.ops && r.ops[id].Open? && !r.ops[id].closed && r.ops[id].acked < |r.ops[id].plan|
  }

  lemma NextCallIsAllowed(r: Response, id: string, ch: Channel)
    requires StandsAtACall(r, id) && Sequenced(r, ch)
    ensures Allowed(ch, r.ops[id].plan[r.ops[id].acked])
  {
    assert OpenOk(r, id);
    assert r.ops[id].plan[r.ops[id].acked].sequence == r.nextSequence + 1;
  }

  lemma AcknowledgeSequenced(r: Response, id: string, ch: Channel)
    requires StandsAtACall(r, id) && Sequenced(r, ch)
    ensures var call := r.ops[id].plan[r.ops[id].acked];
      Sequenced(Acknowledge(r, id, call), After(ch, Attempt(call, Accepted)))
  {
    var op := r.ops[id];
    assert OpenOk(r, id);
    assert Acknowledge(r, id, op.plan[op.acked]).ops[id] == op.(acked := op.acked + 1, doubt := false);
  }

  lemma FailureSequenced(r: Response, id: string, f: Failure, ch: Channel)
    requires StandsAtACall(r, id) && Sequenced(r, ch)
    ensures var op := r.ops[id]; var after := After(ch, Attempt(op.plan[op.acked], Outcome.Failed(f)));
      && (IsDefinitive(f) && op.doubt ==> Sequenced(r.(ops := r.ops[id := op.(closed := true)]), after))
      && (IsDefinitive(f) && !op.doubt ==> Sequenced(Abandon(r, id), after))
      && (!IsDefinitive(f) ==> Sequenced(r.(ops := r.ops[id := op.(doubt := op.doubt || IsAmbiguous(f))]), after))
  {
    assert OpenOk(r, id) && r.pending == Some(id);
  }

  ghost predicate KeepsSequenced(ch: Channel, out: Result) {
    AllAllowed(ch, out.issued) && Sequenced(out.response, Continue(ch, out.issued))
  }

  /** An attempt whose first call is not accepted, or that has no call left to make. */
  lemma StopSequenced(r: Response, id: string, net: Net, ch: Channel)
    requires Inv(r) && id in r.ops && r.ops[id].Open? && !r.ops[id].closed && Sequenced(r, ch)
    requires r.ops[id].acked < |r.ops[id].plan| ==> !net.At(r.ops[id].plan[r.ops[id].acked].uuid.role).Accepted?
    ensures KeepsSequenced(ch, Drive(r, id, net))
  {
    var op, out := r.ops[id], Drive(r, id, net);
    assert op.acked <= |op.plan| by { assert OpenOk(r, id); }
    if op.acked < |op.plan| && !net.At(op.plan[op.acked].uuid.role).NotIssued? {
      var f := net.At(op.plan[op.acked].uuid.role).failure;
      NextCallIsAllowed(r, id, ch);
      FailureSequenced(r, id, f, ch);
      assert out.issued == [Attempt(op.plan[op.acked], Outcome.Failed(f))] && out.issued[1..] == [];
    }
  }

  lemma {:induction false} DriveSequenced(r: Response, id: string, net: Net, ch: Channel)
    requires Inv(r) && id in r.ops && r.ops[id].Open? && !r.ops[id].closed && Sequenced(r, ch)
    ensures KeepsSequenced(ch, Drive(r, id, net))
    decreases if r.ops[id].acked < |r.ops[id].plan| then |r.ops[id].plan| - r.ops[id].acked else 0
  {
    var op := r.ops[id];
    if op.acked < |op.plan| && net.At(op.plan[op.acked].uuid.role).Accepted? {
      var a := Attempt(op.plan[op.acked], Accepted);
      NextCallIsAllowed(r, id, ch);
      AcknowledgeSequenced(r, id, ch);
      AcknowledgeInv(r, id);
      var next := Acknowledge(r, id, a.call);
      DriveSequenced(next, id, net, After(ch, a));
      assert Drive(r, id, net).issued[1..] == Drive(next, id, net).issued;
    } else {
      StopSequenced(r, id, net, ch);
    }
  }

  lemma PerformSequenced(s: Session, c: Command)
    requires Inv(s.response) && AtRest(s.response) && Disciplined(s.log) && Sequenced(s.response, Replay(s.log))
    ensures var out := Perform(s.response, c);
      && Replay(s.log + out.issued) == Continue(Replay(s.log), out.issued)
      && Disciplined(s.log + out.issued) && Sequenced(out.response, Replay(s.log + out.issued))
  {
    var r := s.response;
    ContinueIsReplay(s.log, Perform(r, c).issued);
    if Drives(r, c) {
      ClaimInv(r, c.id, c.request);
      DriveSequenced(Claim(r, c.id, c.request), c.id, c.net, Replay(s.log));
    }
  }

  lemma {:induction false} RunSequenced(s: Session, cmds: seq<Command>)
    requires Inv(s.response) && AtRest(s.response) && Disciplined(s.log) && Sequenced(s.response, Replay(s.log))
    ensures var t := Run(s, cmds); Disciplined(t.log) && Sequenced(t.response, Replay(t.log))
    decreases |cmds|
  {
    if cmds != [] {
      var out := Perform(s.response, cmds[0]);
      PerformInv(s.response, cmds[0]);
      PerformSequenced(s, cmds[0]);
      RunSequenced(Session(out.response, s.log + out.issued), cmds[1..]);
    }
  }

  lemma EveryRunIsSequenced(markdown: string, timeline: TimelineState, cmds: seq<Command>)
    ensures var s := Run(StartedSession(markdown, timeline), cmds);
      && Inv(s.response) && AtRest(s.response)
      && Disciplined(s.log) && Sequenced(s.response, Replay(s.log)) && Numbered(Replay(s.log))
  {
    var start := StartedSession(markdown, timeline);
    OpenedInv(markdown, timeline);
    RunInv(start, cmds);
    RunSequenced(start, cmds);
    DisciplinedLogIsNumbered(Run(start, cmds).log);
  }

  // ---------------------------------------------------------------- main results

  /**
    Sequence numbers are gap-free over the card's whole life: the k-th acknowledged call carries
    sequence k, and nextSequence counts the acknowledged calls, whatever mixture of updates,
    finishes, replacements, retries, withdrawals and reused ids the run was. The calls were
    issued in order, and a number reissued while in doubt repeats the identical call.
  */
  lemma SequenceIsGapFree(markdown: string, timeline: TimelineState, cmds: seq<Command>)
    ensures var s := Run(StartedSession(markdown, timeline), cmds);
      var acked := Replay(s.log).acked;
      && s.response.nextSequence == |acked|
      && (forall k :: 0 <= k < |acked| ==> acked[k].sequence == k + 1)
      && (forall i, j :: 0 <= i < j < |s.log| ==>
            s.log[i].call.sequence <= s.log[j].call.sequence
            && (s.log[i].outcome.Accepted? ==> s.log[i].call.sequence < s.log[j].call.sequence)
            && (InDoubt(s.log[i].outcome) && s.log[i].call.sequence == s.log[j].call.sequence ==>
                  s.log[i].call == s.log[j].call))
  {
    EveryRunIsSequenced(markdown, timeline, cmds);
    var s := Run(StartedSession(markdown, timeline), cmds);
    forall i, j | 0 <= i < j < |s.log|
      ensures s.log[i].call.sequence <= s.log[j].call.sequence
        && (s.log[i].outcome.Accepted? ==> s.log[i].call.sequence < s.log[j].call.sequence)
        && (InDoubt(s.log[i].outcome) && s.log[i].call.sequence == s.log[j].call.sequence ==>
              s.log[i].call == s.log[j].call)
    {
      IssueOrder(s.log, i, j);
    }
  }

  // ---------------------------------------------------------------- attempts of one call

  /** An answer after which the operation stays open at the very call it answered. */
  predicate Unsettled(o: Outcome) { o.Failed? && !IsDefinitive(o.failure) }

  /** After an unsettled answer the very next call issued is the same one. */
  ghost predicate Repeats(log: seq<Attempt>) {
    forall k :: 0 < k < |log| && Unsettled(log[k - 1].outcome) ==> log[k].call == log[k - 1].call
  }

  /** If the last answer was unsettled, the pending operation stands at that call. */
  ghost predicate Stands(r: Response, log: seq<Attempt>) {
    log != [] && Unsettled(log[|log| - 1].outcome) ==>
      && r.pending.Some? && r.pending.value in r.ops && r.ops[r.pending.value].Open?
      && (var op := r.ops[r.pending.value]; op.acked < |op.plan| && op.plan[op.acked] == log[|log| - 1].call)
  }

  lemma RepeatsOneMore(r: Response, id: string, log: seq<Attempt>, outcome: Outcome)
    requires StandsAtACall(r, id) && Repeats(log) && Stands(r, log)
    ensures Repeats(log + [Attempt(r.ops[id].plan[r.ops[id].acked], outcome)])
  {
    assert r.pending == Some(id);
  }

  lemma StopRepeats(r: Response, id: string, net: Net, log: seq<Attempt>)
    requires StandsAtACall(r, id) && Repeats(log) && Stands(r, log)
    requires !net.At(r.ops[id].plan[r.ops[id].acked].uuid.role).Accepted?
    ensures var out := Drive(r, id, net); Repeats(log + out.issued) && Stands(out.response, log + out.issued)
  {
    var op, out := r.ops[id], Drive(r, id, net);
    var outcome := net.At(op.plan[op.acked].uuid.role);
    assert r.pending == Some(id);
    if outcome.NotIssued? {
      assert log + out.issued == log;
    } else {
      RepeatsOneMore(r, id, log, outcome);
      assert out.issued == [Attempt(op.plan[op.acked], outcome)];
    }
  }

  /** An attempt under way on an operation, with the log of everything issued before. */
  ghost predicate OnIt(r: Response, id: string, log: seq<Attempt>) {
    Inv(r) && id in r.ops && r.ops[id].Open? && !r.ops[id].closed && Repeats(log) && Stands(r, log)
  }

  lemma AcceptedRepeats(r: Response, id: string, log: seq<Attempt>)
    requires OnIt(r, id, log) && r.ops[id].acked < |r.ops[id].plan|
    ensures var op := r.ops[id]; var call := op.plan[op.acked]; var next := Acknowledge(r, id, call);
      OnIt(next, id, log + [Attempt(call, Accepted)]) && next.ops[id] == op.(acked := op.acked + 1, doubt := false)
  {
    AcknowledgeInv(r, id);
    RepeatsOneMore(r, id, log, Accepted);
    hide Inv, Repeats;
  }

  lemma OnItFacts(r: Response, id: string, log: seq<Attempt>)
    requires OnIt(r, id, log)
    ensures id in r.ops && r.ops[id].Open? && r.ops[id].acked <= |r.ops[id].plan|
    ensures Repeats(log) && Stands(r, log)
    ensures r.ops[id].acked < |r.ops[id].plan| ==> StandsAtACall(r, id)
  {
    assert OpenOk(r, id);
  }

  lemma CompletedStands(r: Response, id: string, log: seq<Attempt>)
    requires OnIt(r, id, log) && r.ops[id].acked == |r.ops[id].plan|
    ensures Stands(Complete(r, id), log)
  {
    assert r.pending == Some(id);
  }

  lemma {:induction false} DriveRepeats(r: Response, id: string, net: Net, log: seq<Attempt>)
    requires OnIt(r, id, log)
    ensures var out := Drive(r, id, net); Repeats(log + out.issued) && Stands(out.response, log + out.issued)
    decreases |r.ops[id].plan| - r.ops[id].acked
  {
    hide OnIt, Repeats, Stands, Acknowledge;
    OnItFacts(r, id, log);
    var op, out := r.ops[id], Drive(r, id, net);
    if op.acked == |op.plan| {
      CompletedStands(r, id, log);
      assert log + out.issued == log;
    } else if net.At(op.plan[op.acked].uuid.role).Accepted? {
      var a := Attempt(op.plan[op.acked], Accepted);
      AcceptedRepeats(r, id, log);
      OnItFacts(Acknowledge(r, id, a.call), id, log + [a]);
      DriveRepeats(Acknowledge(r, id, a.call), id, net, log + [a]);
      assert log + [a] + Drive(Acknowledge(r, id, a.call), id, net).issued == log + out.issued;
    } else {
      StopRepeats(r, id, net, log);
    }
  }

  lemma {:induction false} RunRepeats(s: Session, cmds: seq<Command>)
    requires Inv(s.response) && AtRest(s.response) && Repeats(s.log) && Stands(s.response, s.log)
    ensures Repeats(Run(s, cmds).log)
    decreases |cmds|
  {
    if cmds != [] {
      var r, c := s.response, cmds[0];
      var out := Perform(r, c);
      PerformInv(r, c);
      if Drives(r, c) {
        ClaimInv(r, c.id, c.request);
        DriveRepeats(Claim(r, c.id, c.request), c.id, c.net, s.log);
      } else {
        assert s.log + out.issued == s.log;
      }
      RunRepeats(Session(out.response, s.log + out.issued), cmds[1..]);
    }
  }

  /**
    Over any run all attempts of one planned call follow each other directly and carry the
    identical payload, UUID and sequence: an answer that settles nothing, ambiguous or an
    explicit temporary refusal, is followed by the same call or by none.
  */
  lemma AttemptsOfACallAreIdentical(markdown: string, timeline: TimelineState, cmds: seq<Command>, i: nat, j: nat)
    requires i <= j < |Run(StartedSession(markdown, timeline), cmds).log|
    requires var log := Run(StartedSession(markdown, timeline), cmds).log;
      forall k :: i <= k < j ==> Unsettled(log[k].outcome)
    ensures var log := Run(StartedSession(markdown, timeline), cmds).log; log[i].call == log[j].call
    decreases j
  {
    OpenedInv(markdown, timeline);
    RunRepeats(StartedSession(markdown, timeline), cmds);
    if i < j {
      AttemptsOfACallAreIdentical(markdown, timeline, cmds, i, j - 1);
    }
  }
}
