/**
  The daemon's shadow of a card and the card at Feishu, over whole runs and over anything the
  network may do.
*/
module CardAgreement {
  import opened Options
  import opened CardFailures
  import opened CardChannel
  import opened ResponseProtocol
  import opened ResponseProofs
  import opened CardSequence

  /** The shadow describes this card. Without a panel there is no body or header to describe. */
  predicate Describes(r: Response, card: Card) {
    card.answer == r.markdown
    && (r.timeline.present ==> card.body == r.timeline.markdown && card.header == r.timeline.title)
  }

  /** A finish whose every call is acknowledged and that is not completed yet. */
  ghost predicate Closing(r: Response) {
    r.pending.Some? && r.pending.value in r.ops && r.ops[r.pending.value].Open?
    && r.ops[r.pending.value].request.Finish? && r.ops[r.pending.value].acked == |r.ops[r.pending.value].plan|
  }

  /** While streaming, the shadow describes the card the acknowledged calls make. */
  ghost predicate Shadows(r: Response, acked: seq<Call>, start: Card) {
    r.phase == Streaming ==> Describes(r, Show(start, acked)) && (!Closing(r) ==> Show(start, acked).streaming)
  }

  lemma AcknowledgeShadows(r: Response, id: string, acked: seq<Call>, start: Card)
    requires StandsAtACall(r, id) && Shadows(r, acked, start)
    ensures var call := r.ops[id].plan[r.ops[id].acked]; Shadows(Acknowledge(r, id, call), acked + [call], start)
  {
    var op := r.ops[id];
    var call := op.plan[op.acked];
    assert OpenOk(r, id);
    assert (acked + [call])[..|acked|] == acked;
    assert Acknowledge(r, id, call).ops[id] == op.(acked := op.acked + 1, doubt := false);
  }

  lemma FailureShadows(r: Response, id: string, op: Op, acked: seq<Call>, start: Card)
    requires StandsAtACall(r, id) && Shadows(r, acked, start)
    requires op.Open? && op == r.ops[id].(doubt := op.doubt, closed := op.closed)
    ensures Shadows(r.(ops := r.ops[id := op]), acked, start) && Shadows(Abandon(r, id), acked, start)
  {
    assert r.pending == Some(id);
  }

  lemma CompleteShadows(r: Response, id: string, acked: seq<Call>, start: Card)
    requires Inv(r) && id in r.ops && r.ops[id].Open? && r.ops[id].acked == |r.ops[id].plan| && Shadows(r, acked, start)
    ensures Shadows(Complete(r, id), acked, start)
  {
    assert OpenOk(r, id);
  }

  lemma StopShadows(r: Response, id: string, net: Net, ch: Channel, start: Card)
    requires StandsAtACall(r, id) && Shadows(r, ch.acked, start)
    requires !net.At(r.ops[id].plan[r.ops[id].acked].uuid.role).Accepted?
    ensures Shadows(Drive(r, id, net).response, Continue(ch, Drive(r, id, net).issued).acked, start)
  {
    var op, out := r.ops[id], Drive(r, id, net);
    if !net.At(op.plan[op.acked].uuid.role).NotIssued? {
      var f := net.At(op.plan[op.acked].uuid.role).failure;
      FailureShadows(r, id, op.(closed := true), ch.acked, start);
      FailureShadows(r, id, op.(doubt := op.doubt || IsAmbiguous(f)), ch.acked, start);
      assert out.issued == [Attempt(op.plan[op.acked], Outcome.Failed(f))] && out.issued[1..] == [];
    }
  }

  lemma {:induction false} DriveShadows(r: Response, id: string, net: Net, ch: Channel, start: Card)
    requires Inv(r) && id in r.ops && r.ops[id].Open? && !r.ops[id].closed && Shadows(r, ch.acked, start)
    ensures Shadows(Drive(r, id, net).response, Continue(ch, Drive(r, id, net).issued).acked, start)
    decreases if r.ops[id].acked < |r.ops[id].plan| then |r.ops[id].plan| - r.ops[id].acked else 0
  {
    var op := r.ops[id];
    assert op.acked <= |op.plan| by { assert OpenOk(r, id); }
    if op.acked == |op.plan| {
      CompleteShadows(r, id, ch.acked, start);
    } else if net.At(op.plan[op.acked].uuid.role).Accepted? {
      var a := Attempt(op.plan[op.acked], Accepted);
      AcknowledgeShadows(r, id, ch.acked, start);
      AcknowledgeInv(r, id);
      var next := Acknowledge(r, id, a.call);
      DriveShadows(next, id, net, After(ch, a), start);
      assert Drive(r, id, net).issued[1..] == Drive(next, id, net).issued;
    } else {
      StopShadows(r, id, net, ch, start);
    }
  }

  lemma PerformShadows(s: Session, c: Command, start: Card)
    requires Inv(s.response) && AtRest(s.response) && Shadows(s.response, Replay(s.log).acked, start)
    ensures var out := Perform(s.response, c); Shadows(out.response, Replay(s.log + out.issued).acked, start)
  {
    var r := s.response;
    ContinueIsReplay(s.log, Perform(r, c).issued);
    if Drives(r, c) {
      ClaimInv(r, c.id, c.request);
      DriveShadows(Claim(r, c.id, c.request), c.id, c.net, Replay(s.log), start);
    }
  }

  lemma {:induction false} RunShadows(s: Session, cmds: seq<Command>, start: Card)
    requires Inv(s.response) && AtRest(s.response) && Shadows(s.response, Replay(s.log).acked, start)
    ensures var t := Run(s, cmds); Shadows(t.response, Replay(t.log).acked, start)
    decreases |cmds|
  {
    if cmds != [] {
      var out := Perform(s.response, cmds[0]);
      PerformInv(s.response, cmds[0]);
      PerformShadows(s, cmds[0], start);
      RunShadows(Session(out.response, s.log + out.issued), cmds[1..], start);
    }
  }

  function StartedCard(markdown: string, timeline: TimelineState): Card {
    Card(markdown, timeline.markdown, timeline.title, true, "")
  }

  /**
    The card has had the acknowledged calls, the last of them numbered `last`, and at most the one
    in doubt; while the response streams it shows the shadow, or the shadow with that call applied.
  */
  ghost predicate Agrees(r: Response, card: Card, last: int) {
    && (last == r.nextSequence
        || (DoubtOf(r).Some? && last == r.nextSequence + 1 == DoubtOf(r).value.sequence))
    && (r.phase == Streaming ==>
          (Describes(r, card) && card.streaming)
          || (DoubtOf(r).Some?
              && exists shown ::
                   Describes(r, shown) && shown.streaming && card == Paint(shown, DoubtOf(r).value.payload)))
    && (r.phase == Streaming && last == r.nextSequence ==> Describes(r, card))
  }

  // ---------------------------------------------------------------- main results

  /**
    Whatever the network does with the calls a run issued -- lost answers, copies that arrive
    late, out of turn or more than once -- and if no UUID was acknowledged twice, Feishu has
    applied the acknowledged calls and at most the one the pending operation is in doubt about.
    While the response streams, the card is still in streaming mode and shows what the shadow
    says, or what it would say with that one call applied.
  */
  lemma CardShowsTheShadow(markdown: string, timeline: TimelineState, cmds: seq<Command>, events: seq<Event>)
    requires var log := Run(StartedSession(markdown, timeline), cmds).log;
      Plausible(events) && Sends(events) == log && DistinctUuids(Replay(log).acked)
    ensures var r := Run(StartedSession(markdown, timeline), cmds).response;
      var card := Show(StartedCard(markdown, timeline), Applied(events));
      Agrees(r, card, LastSequence(Applied(events)))
  {
    var start, first := StartedCard(markdown, timeline), StartedSession(markdown, timeline);
    EveryRunIsSequenced(markdown, timeline, cmds);
    OpenedInv(markdown, timeline);
    RunShadows(first, cmds, start);
    FeishuFollowsTheLog(events);
    var s := Run(first, cmds);
    var ch := Replay(s.log);
    assert !Closing(s.response);
    if Applied(events) != ch.acked {
      assert Applied(events)[..|ch.acked|] == ch.acked;
    }
  }

  /**
    For every run and everything the network may do with it: every call the daemon holds
    acknowledged took effect on the card, iff no operation id had a call of one kind acknowledged
    twice.
  */
  lemma AcknowledgedMeansAppliedIff(markdown: string, timeline: TimelineState, cmds: seq<Command>, events: seq<Event>)
    requires Plausible(events) && Sends(events) == Run(StartedSession(markdown, timeline), cmds).log
    ensures var acked := Replay(Sends(events)).acked;
      (forall call :: call in acked ==> call in Applied(events))
      <==> forall i, j :: 0 <= i < j < |acked| && acked[i].uuid.operationId == acked[j].uuid.operationId ==>
             acked[i].uuid.role != acked[j].uuid.role
  {
    EveryRunIsSequenced(markdown, timeline, cmds);
    AcknowledgedCallsLandIff(events);
  }
}
