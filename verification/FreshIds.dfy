/** When no UUID is acknowledged twice: it is enough never to open a second operation under one id. */
module FreshIds {
  import opened Options
  import opened CardChannel
  import opened ResponseProtocol
  import opened ResponseProofs
  import opened CardSequence
  import opened CardAgreement
  import opened CardFulfilment

  /** The request would open a new operation rather than be refused, replayed or continued. */
  predicate Claims(r: Response, c: Command) { Drives(r, c) && c.id !in r.ops }

  /** No request opens an operation under an id that opened one before, whatever became of that one. */
  ghost predicate NewIds(s: Session, cmds: seq<Command>, used: set<string>)
    decreases |cmds|
  {
    cmds == []
    || ((Claims(s.response, cmds[0]) ==> cmds[0].id !in used)
        && var out := Perform(s.response, cmds[0]);
           NewIds(Session(out.response, s.log + out.issued), cmds[1..], Used(s.response, cmds[0], used)))
  }

  function Used(r: Response, c: Command, used: set<string>): set<string> {
    if Claims(r, c) then used + {c.id} else used
  }

  ghost predicate Own(calls: seq<Call>, id: string) { forall k :: 0 <= k < |calls| ==> calls[k].uuid.operationId == id }

  /** What is acknowledged has distinct UUIDs, of ids opened so far; what an open operation has left is new. */
  ghost predicate Fresh(r: Response, acked: seq<Call>, used: set<string>) {
    && DistinctUuids(acked)
    && (forall k :: 0 <= k < |acked| ==> acked[k].uuid.operationId in used)
    && (forall id :: id in r.ops && r.ops[id].Open? ==> id in used && NotYetAcked(r.ops[id], acked))
  }

  ghost predicate NotYetAcked(op: Op, acked: seq<Call>)
    requires op.Open?
  {
    forall k :: op.acked <= k < |op.plan| ==> !Carries(acked, op.plan[k].uuid)
  }

  lemma PlanIsOwn(r: Response, id: string, req: Request)
    ensures Own(Plan(r, id, req), id) && DistinctUuids(Plan(r, id, req))
  {
    PlanIsOk(r, id, req);
  }

  lemma ClaimIsFresh(r: Response, c: Command, acked: seq<Call>, used: set<string>)
    requires Inv(r) && Drives(r, c) && Fresh(r, acked, used) && (Claims(r, c) ==> c.id !in used)
    ensures Fresh(Claim(r, c.id, c.request), acked, Used(r, c, used))
  {
    PlanIsOwn(r, c.id, c.request);
  }

  lemma AcknowledgeIsFresh(r: Response, id: string, acked: seq<Call>, used: set<string>)
    requires StandsAtACall(r, id) && Fresh(r, acked, used)
    ensures var call := r.ops[id].plan[r.ops[id].acked]; Fresh(Acknowledge(r, id, call), acked + [call], used)
  {
    var op := r.ops[id];
    var call := op.plan[op.acked];
    var next, more := Acknowledge(r, id, call), acked + [call];
    assert OpenOk(r, id);
    assert next.ops[id] == op.(acked := op.acked + 1, doubt := false);
    forall k | op.acked < k < |op.plan| ensures !Carries(more, op.plan[k].uuid) {
      assert call.uuid != op.plan[k].uuid && !Carries(acked, op.plan[k].uuid);
    }
    assert forall x :: x in next.ops && next.ops[x].Open? ==> x == id;
    assert !Carries(acked, call.uuid);
  }

  lemma {:induction false} DriveIsFresh(r: Response, id: string, net: Net, ch: Channel, used: set<string>)
    requires Inv(r) && id in r.ops && r.ops[id].Open? && !r.ops[id].closed && Fresh(r, ch.acked, used)
    ensures Fresh(Drive(r, id, net).response, Continue(ch, Drive(r, id, net).issued).acked, used)
    decreases if r.ops[id].acked < |r.ops[id].plan| then |r.ops[id].plan| - r.ops[id].acked else 0
  {
    var op := r.ops[id];
    assert op.acked <= |op.plan| by { assert OpenOk(r, id); }
    if op.acked < |op.plan| && net.At(op.plan[op.acked].uuid.role).Accepted? {
      var a := Attempt(op.plan[op.acked], Accepted);
      AcknowledgeIsFresh(r, id, ch.acked, used);
      AcknowledgeInv(r, id);
      DriveIsFresh(Acknowledge(r, id, a.call), id, net, After(ch, a), used);
      assert Drive(r, id, net).issued[1..] == Drive(Acknowledge(r, id, a.call), id, net).issued;
    } else {
      StopIsFresh(r, id, net, ch, used);
    }
  }

  lemma StopIsFresh(r: Response, id: string, net: Net, ch: Channel, used: set<string>)
    requires Inv(r) && id in r.ops && r.ops[id].Open? && !r.ops[id].closed && Fresh(r, ch.acked, used)
    requires r.ops[id].acked < |r.ops[id].plan| ==> !net.At(r.ops[id].plan[r.ops[id].acked].uuid.role).Accepted?
    ensures Fresh(Drive(r, id, net).response, Continue(ch, Drive(r, id, net).issued).acked, used)
  {
    var op, out := r.ops[id], Drive(r, id, net);
    if op.acked < |op.plan| && !net.At(op.plan[op.acked].uuid.role).NotIssued? {
      assert |out.issued| == 1 && out.issued[1..] == [];
    }
  }

  lemma {:induction false} NewIdsAreFresh(s: Session, cmds: seq<Command>, used: set<string>)
    requires Inv(s.response) && AtRest(s.response) && Fresh(s.response, Replay(s.log).acked, used)
      && NewIds(s, cmds, used)
    ensures DistinctUuids(Replay(Run(s, cmds).log).acked)
    decreases |cmds|
  {
    if cmds != [] {
      var r, c := s.response, cmds[0];
      var out := Perform(r, c);
      PerformInv(r, c);
      ContinueIsReplay(s.log, out.issued);
      if Drives(r, c) {
        ClaimInv(r, c.id, c.request);
        ClaimIsFresh(r, c, Replay(s.log).acked, used);
        DriveIsFresh(Claim(r, c.id, c.request), c.id, c.net, Replay(s.log), Used(r, c, used));
      }
      NewIdsAreFresh(Session(out.response, s.log + out.issued), cmds[1..], Used(r, c, used));
    }
  }

  /**
    A provider that never opens a second operation under one id, and retries as it likes, never
    has a UUID acknowledged twice.
  */
  lemma NeverReusingAnIdIsEnough(markdown: string, timeline: TimelineState, cmds: seq<Command>)
    requires NewIds(StartedSession(markdown, timeline), cmds, {})
    ensures DistinctUuids(Replay(Run(StartedSession(markdown, timeline), cmds).log).acked)
  {
    OpenedInv(markdown, timeline);
    NewIdsAreFresh(StartedSession(markdown, timeline), cmds, {});
  }

  /** For such a provider card and shadow agree, whatever the network does. */
  lemma NewIdsMeanAgreement(markdown: string, timeline: TimelineState, cmds: seq<Command>, events: seq<Event>)
    requires NewIds(StartedSession(markdown, timeline), cmds, {})
    requires Plausible(events) && Sends(events) == Run(StartedSession(markdown, timeline), cmds).log
    ensures var r := Run(StartedSession(markdown, timeline), cmds).response;
      Agrees(r, Show(StartedCard(markdown, timeline), Applied(events)), LastSequence(Applied(events)))
  {
    NeverReusingAnIdIsEnough(markdown, timeline, cmds);
    CardShowsTheShadow(markdown, timeline, cmds, events);
  }

  lemma {:induction false} RunOfOneMore(s: Session, cmds: seq<Command>, c: Command)
    ensures var before := Run(s, cmds); var out := Perform(before.response, c);
      Run(s, cmds + [c]) == Session(out.response, before.log + out.issued)
    decreases |cmds|
  {
    hide Perform;
    if cmds == [] {
      assert cmds + [c] == [c] && [c][1..] == [];
    } else {
      var out := Perform(s.response, cmds[0]);
      RunOfOneMore(Session(out.response, s.log + out.issued), cmds[1..], c);
      assert (cmds + [c])[1..] == cmds[1..] + [c];
    }
  }

  /** For such a provider a first receipt means that the card shows the request. */
  lemma NewIdsMakeReceiptsTrue(markdown: string, timeline: TimelineState, cmds: seq<Command>, c: Command,
                               events: seq<Event>)
    requires NewIds(StartedSession(markdown, timeline), cmds + [c], {})
    requires var s := Run(StartedSession(markdown, timeline), cmds); var out := Perform(s.response, c);
      && out.reply.Receipt? && !out.reply.duplicate
      && Plausible(events) && Sends(events) == s.log + out.issued
    ensures var s := Run(StartedSession(markdown, timeline), cmds);
      Fulfils(Show(StartedCard(markdown, timeline), Applied(events)), s.response.timeline.present, c.request)
  {
    NeverReusingAnIdIsEnough(markdown, timeline, cmds + [c]);
    RunOfOneMore(StartedSession(markdown, timeline), cmds, c);
    ReceiptMeansTheCardShowsIt(markdown, timeline, cmds, c, events);
  }
}
