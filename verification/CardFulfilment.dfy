/** What a receipt is worth: the card at Feishu then shows what the request asked for. */
module CardFulfilment {
  import opened Options
  import opened CardFailures
  import opened CardChannel
  import opened ResponseProtocol
  import opened ResponseProofs
  import opened CardSequence
  import opened CardAgreement

  /**
    The card shows the request: its answer, the timeline parts it names, and for a closing request
    the closed mode and summary.
  */
  predicate Fulfils(card: Card, panel: bool, req: Request) {
    && card.answer == req.markdown
    && (panel && req.timeline.markdown != "" ==> card.body == req.timeline.markdown)
    && (panel && req.timeline.title != "" ==> card.header == req.timeline.title)
    && (!req.Update? ==> !card.streaming && (req.summary != "" ==> card.summary == req.summary))
  }

  /** A card with just what the request asks for changed: parts it leaves empty stay as they are. */
  function Asked(card: Card, panel: bool, req: Request): Card {
    card.(answer := req.markdown,
          body := if panel && req.timeline.markdown != "" then req.timeline.markdown else card.body,
          header := if panel && req.timeline.title != "" then req.timeline.title else card.header,
          streaming := req.Update? && card.streaming,
          summary := if req.Update? || req.summary == "" then card.summary else req.summary)
  }

  function Rest(op: Op): seq<Call>
    requires op.Open? && op.acked <= |op.plan|
  {
    op.plan[op.acked..]
  }

  /** Every open operation would fulfil its request if just the calls it has left were applied. */
  ghost predicate Promised(r: Response, acked: seq<Call>, start: Card) {
    forall id :: id in r.ops && r.ops[id].Open? ==>
      r.ops[id].acked <= |r.ops[id].plan|
      && Fulfils(Show(start, acked + Rest(r.ops[id])), r.timeline.present, r.ops[id].request)
  }

  lemma ShowOne(card: Card, call: Call)
    ensures Show(card, []) == card && Show(card, [call]) == Paint(card, call.payload)
  {
    assert [call][..0] == [];
  }

  lemma {:induction false} ShowBoth(card: Card, a: seq<Call>, b: seq<Call>)
    ensures Show(card, a + b) == Show(Show(card, a), b)
    decreases |b|
  {
    if b == [] {
      assert a + b == a;
    } else {
      assert (a + b)[..|a + b| - 1] == a + b[..|b| - 1];
      ShowBoth(card, a, b[..|b| - 1]);
    }
  }

  lemma TimelineShown(r: Response, id: string, after: int, parts: Parts, card: Card)
    requires r.timeline.present ==> card.body == r.timeline.markdown && card.header == r.timeline.title
    ensures var shown := Show(card, TimelineCalls(r, id, after, parts));
      && shown.answer == card.answer && shown.streaming == card.streaming && shown.summary == card.summary
      && shown.body == (if r.timeline.present && parts.markdown != "" then parts.markdown else card.body)
      && shown.header == (if r.timeline.present && parts.title != "" then parts.title else card.header)
  {
    var calls := TimelineCalls(r, id, after, parts);
    var body, header := if calls != [] then calls[..1] else [], if calls != [] then calls[1..] else [];
    assert calls == body + header;
    ShowBoth(card, body, header);
    if |calls| >= 1 { ShowOne(card, calls[0]); assert body == [calls[0]]; }
    if |calls| == 2 { ShowOne(Show(card, body), calls[1]); assert header == [calls[1]]; }
    hide Show;
    assert |calls| == 1 ==> header == [];
    ShowNothing(card);
    ShowNothing(Show(card, body));
  }

  lemma ShowNothing(card: Card)
    ensures Show(card, []) == card
  {
  }

  lemma ReplacementFulfils(r: Response, id: string, req: Request, card: Card)
    requires req.Replace?
    ensures Show(card, Plan(r, id, req)) == Asked(card, r.timeline.present, req)
  {
    var plan := Plan(r, id, req);
    assert plan == [plan[0]] + [plan[1]];
    ShowBoth(card, [plan[0]], [plan[1]]);
    ShowOne(card, plan[0]);
    ShowOne(Show(card, [plan[0]]), plan[1]);
  }

  lemma AnswerShown(r: Response, req: Request, answered: seq<Call>, card: Card)
    requires card.answer == r.markdown
    requires answered == [] ==> req.markdown == r.markdown
    requires answered != [] ==> |answered| == 1 && answered[0].payload == Answer(req.markdown)
    ensures Show(card, answered) == card.(answer := req.markdown)
  {
    if answered != [] {
      ShowOne(card, answered[0]);
      assert answered == [answered[0]];
    }
  }

  lemma UpdateFulfils(r: Response, id: string, req: Request, card: Card)
    requires req.Update? && Describes(r, card)
    ensures Show(card, Plan(r, id, req)) == Asked(card, r.timeline.present, req)
  {
    var plan, n := Plan(r, id, req), r.nextSequence;
    var answered := [Call(Answer(req.markdown), Uuid(ContentRole, id), n + 1)];
    var parts := TimelineCalls(r, id, n + 1, req.timeline);
    assert plan == answered + parts;
    hide Plan, TimelineCalls, Show;
    AnswerShown(r, req, answered, card);
    TimelineShown(r, id, n + 1, req.timeline, Show(card, answered));
    ShowBoth(card, answered, parts);
  }

  lemma ClosesAsAsked(card: Card, shown: Card, panel: bool, req: Request)
    requires req.Finish?
    requires shown.answer == req.markdown && shown.streaming == card.streaming && shown.summary == card.summary
    requires shown.body == if panel && req.timeline.markdown != "" then req.timeline.markdown else card.body
    requires shown.header == if panel && req.timeline.title != "" then req.timeline.title else card.header
    ensures Paint(shown, Closing(req.summary)) == Asked(card, panel, req)
  {
  }

  lemma FinishFulfils(r: Response, id: string, req: Request, card: Card)
    requires req.Finish? && Describes(r, card)
    ensures Show(card, Plan(r, id, req)) == Asked(card, r.timeline.present, req)
  {
    var plan, n := Plan(r, id, req), r.nextSequence;
    var answered :=
      if req.markdown != r.markdown then [Call(Answer(req.markdown), Uuid(ContentRole, id), n + 1)] else [];
    var parts := TimelineCalls(r, id, n + |answered|, req.timeline);
    var closing := Call(Closing(req.summary), Uuid(FinishRole, id), n + |answered + parts| + 1);
    assert plan == answered + parts + [closing];
    hide Plan, TimelineCalls, Show, Asked;
    AnswerShown(r, req, answered, card);
    TimelineShown(r, id, n + |answered|, req.timeline, Show(card, answered));
    ShowBoth(card, answered, parts);
    ShowBoth(card, answered + parts, [closing]);
    ShowOne(Show(card, answered + parts), closing);
    ClosesAsAsked(card, Show(card, answered + parts), r.timeline.present, req);
  }

  /** A plan frozen against a shadow that describes the card reaches what was asked for. */
  lemma PlanFulfils(r: Response, id: string, req: Request, start: Card, acked: seq<Call>)
    requires !req.Replace? ==> Describes(r, Show(start, acked))
    ensures Show(start, acked + Plan(r, id, req)) == Asked(Show(start, acked), r.timeline.present, req)
    ensures Fulfils(Show(start, acked + Plan(r, id, req)), r.timeline.present, req)
  {
    ShowBoth(start, acked, Plan(r, id, req));
    match req
    case Update(_, _, _, _) => UpdateFulfils(r, id, req, Show(start, acked));
    case Finish(_, _, _, _, _, _) => FinishFulfils(r, id, req, Show(start, acked));
    case Replace(_, _, _, _) => ReplacementFulfils(r, id, req, Show(start, acked));
  }

  /** The attempt moved calls from what was left to what is acknowledged, and did nothing else to them. */
  ghost predicate Moved(r: Response, id: string, ch: Channel, out: Result)
    requires id in r.ops && r.ops[id].Open? && r.ops[id].acked <= |r.ops[id].plan|
  {
    var acked := Continue(ch, out.issued).acked;
    && out.response.timeline.present == r.timeline.present
    && (out.reply.Receipt? ==> acked == ch.acked + Rest(r.ops[id]) && out.response.pending.None?)
    && (id in out.response.ops && out.response.ops[id].Open? ==>
          var op := out.response.ops[id];
          op.request == r.ops[id].request && op.acked <= |op.plan| && acked + Rest(op) == ch.acked + Rest(r.ops[id]))
  }

  lemma StopMoves(r: Response, id: string, net: Net, ch: Channel)
    requires id in r.ops && r.ops[id].Open? && r.ops[id].acked <= |r.ops[id].plan|
    requires r.ops[id].acked < |r.ops[id].plan| ==> !net.At(r.ops[id].plan[r.ops[id].acked].uuid.role).Accepted?
    ensures Moved(r, id, ch, Drive(r, id, net))
  {
    var op, out := r.ops[id], Drive(r, id, net);
    if op.acked == |op.plan| {
      assert ch.acked + Rest(op) == ch.acked;
    } else if !net.At(op.plan[op.acked].uuid.role).NotIssued? {
      assert out.issued[1..] == [] && Continue(ch, out.issued) == After(ch, out.issued[0]);
    }
  }

  lemma {:induction false} DriveMovesCalls(r: Response, id: string, net: Net, ch: Channel)
    requires id in r.ops && r.ops[id].Open? && r.ops[id].acked <= |r.ops[id].plan|
    ensures Moved(r, id, ch, Drive(r, id, net))
    decreases |r.ops[id].plan| - r.ops[id].acked
  {
    var op := r.ops[id];
    if op.acked < |op.plan| && net.At(op.plan[op.acked].uuid.role).Accepted? {
      var a := Attempt(op.plan[op.acked], Accepted);
      var next := Acknowledge(r, id, a.call);
      assert next.ops[id] == op.(acked := op.acked + 1, doubt := false);
      DriveMovesCalls(next, id, net, After(ch, a));
      assert Drive(r, id, net).issued[1..] == Drive(next, id, net).issued;
      assert After(ch, a).acked + Rest(next.ops[id]) == ch.acked + Rest(op);
      assert Continue(ch, Drive(r, id, net).issued) == Continue(After(ch, a), Drive(next, id, net).issued);
      MovedFromNext(r, next, id, ch, After(ch, a), Drive(next, id, net), Drive(r, id, net));
    } else {
      StopMoves(r, id, net, ch);
    }
  }

  lemma MovedFromNext(r: Response, next: Response, id: string, ch: Channel, later: Channel, rest: Result, out: Result)
    requires id in r.ops && r.ops[id].Open? && r.ops[id].acked <= |r.ops[id].plan|
    requires id in next.ops && next.ops[id].Open? && next.ops[id].acked <= |next.ops[id].plan|
    requires Moved(next, id, later, rest) && out.response == rest.response && out.reply == rest.reply
    requires Continue(ch, out.issued) == Continue(later, rest.issued)
    requires later.acked + Rest(next.ops[id]) == ch.acked + Rest(r.ops[id])
    requires next.ops[id].request == r.ops[id].request && next.timeline.present == r.timeline.present
    ensures Moved(r, id, ch, out)
  {
  }

  lemma OnlyThePendingIsOpen(r: Response, c: Command)
    requires Inv(r) && c.id in r.ops && r.ops[c.id].Open? && r.ops[c.id].acked <= |r.ops[c.id].plan|
    ensures forall x :: x in Drive(r, c.id, c.net).response.ops && Drive(r, c.id, c.net).response.ops[x].Open? ==>
      x == c.id
  {
    forall x | x in Drive(r, c.id, c.net).response.ops && Drive(r, c.id, c.net).response.ops[x].Open? && x != c.id
      ensures false
    {
      DriveLeavesOthers(r, c.id, c.net, x);
    }
  }

  lemma PerformKeepsPromises(r: Response, c: Command, ch: Channel, start: Card)
    requires Inv(r) && AtRest(r) && Shadows(r, ch.acked, start) && Promised(r, ch.acked, start)
    ensures var out := Perform(r, c); var acked := Continue(ch, out.issued).acked;
      && Promised(out.response, acked, start)
      && (out.reply.Receipt? && !out.reply.duplicate ==>
            Fulfils(Show(start, acked), r.timeline.present, c.request) && out.response.pending.None?)
  {
    if Drives(r, c) {
      var claimed := Claim(r, c.id, c.request);
      ClaimInv(r, c.id, c.request);
      if c.id !in r.ops {
        PlanFulfils(r, c.id, c.request, start, ch.acked);
        assert Rest(claimed.ops[c.id]) == Plan(r, c.id, c.request);
      }
      DriveMovesCalls(claimed, c.id, c.net, ch);
      OnlyThePendingIsOpen(claimed, c);
      hide Drive, Show, Plan, Fulfils, Inv, Shadows;
    }
  }

  /** Everything a run keeps that the next request needs. */
  ghost predicate Kept(s: Session, start: Card) {
    && Inv(s.response) && AtRest(s.response)
    && Shadows(s.response, Replay(s.log).acked, start) && Promised(s.response, Replay(s.log).acked, start)
  }

  lemma PerformKeeps(s: Session, c: Command, start: Card)
    requires Kept(s, start)
    ensures var out := Perform(s.response, c);
      && Kept(Session(out.response, s.log + out.issued), start)
      && (out.reply.Receipt? && !out.reply.duplicate ==>
            Fulfils(Show(start, Replay(s.log + out.issued).acked), s.response.timeline.present, c.request)
            && out.response.pending.None?)
  {
    hide Inv, AtRest, Shadows, Promised, Perform, Fulfils;
    PerformInv(s.response, c);
    PerformShadows(s, c, start);
    ContinueIsReplay(s.log, Perform(s.response, c).issued);
    PerformKeepsPromises(s.response, c, Replay(s.log), start);
  }

  lemma {:induction false} RunKeeps(s: Session, cmds: seq<Command>, start: Card)
    requires Kept(s, start)
    ensures Kept(Run(s, cmds), start)
    decreases |cmds|
  {
    hide Kept, Perform;
    if cmds != [] {
      PerformKeeps(s, cmds[0], start);
      var out := Perform(s.response, cmds[0]);
      RunKeeps(Session(out.response, s.log + out.issued), cmds[1..], start);
    }
  }

  lemma StartedIsKept(markdown: string, timeline: TimelineState)
    ensures Kept(StartedSession(markdown, timeline), StartedCard(markdown, timeline))
  {
    OpenedInv(markdown, timeline);
  }

  /**
    A first receipt is the truth about the card: whatever the run was before, whatever attempts
    it took and whatever copies of calls still arrive, if no UUID was acknowledged twice, the
    card at Feishu shows the answer of the request, the timeline parts it named, and after Finish
    or Replace the closed mode and summary.
  */
  lemma ReceiptMeansTheCardShowsIt(markdown: string, timeline: TimelineState, cmds: seq<Command>, c: Command,
                                   events: seq<Event>)
    requires var s := Run(StartedSession(markdown, timeline), cmds); var out := Perform(s.response, c);
      && out.reply.Receipt? && !out.reply.duplicate
      && Plausible(events) && Sends(events) == s.log + out.issued
      && DistinctUuids(Replay(s.log + out.issued).acked)
    ensures var s := Run(StartedSession(markdown, timeline), cmds);
      Fulfils(Show(StartedCard(markdown, timeline), Applied(events)), s.response.timeline.present, c.request)
  {
    var start, first := StartedCard(markdown, timeline), StartedSession(markdown, timeline);
    EveryRunIsSequenced(markdown, timeline, cmds);
    StartedIsKept(markdown, timeline);
    RunKeeps(first, cmds, start);
    var s := Run(first, cmds);
    PerformKeeps(s, c, start);
    PerformSequenced(s, c);
    FeishuFollowsTheLog(events);
  }

  /**
    An operation that goes through in its first attempt, begun while the response streams, turns
    the card into just what was asked for: what the request leaves empty, and the mode and summary
    unless it closes, stay as the calls acknowledged before had left them.
  */
  lemma FirstReceiptChangesOnlyWhatIsAsked(markdown: string, timeline: TimelineState, cmds: seq<Command>, c: Command,
                                           events: seq<Event>)
    requires var s := Run(StartedSession(markdown, timeline), cmds); var out := Perform(s.response, c);
      && s.response.phase == Streaming && c.id !in s.response.ops
      && out.reply.Receipt? && Plausible(events) && Sends(events) == s.log + out.issued
      && DistinctUuids(Replay(s.log + out.issued).acked)
    ensures var s := Run(StartedSession(markdown, timeline), cmds);
      var start := StartedCard(markdown, timeline);
      Show(start, Applied(events))
      == Asked(Show(start, Replay(s.log).acked), s.response.timeline.present, c.request)
  {
    var start, first := StartedCard(markdown, timeline), StartedSession(markdown, timeline);
    EveryRunIsSequenced(markdown, timeline, cmds);
    OpenedInv(markdown, timeline);
    RunInv(first, cmds);
    assert Show(start, []) == start;
    RunShadows(first, cmds, start);
    var s := Run(first, cmds);
    PerformSequenced(s, c);
    FeishuFollowsTheLog(events);
    ContinueIsReplay(s.log, Perform(s.response, c).issued);
    FreshAttemptMovesThePlan(s.response, c, Replay(s.log));
    PlanFulfils(s.response, c.id, c.request, start, Replay(s.log).acked);
  }

  lemma FreshAttemptMovesThePlan(r: Response, c: Command, ch: Channel)
    requires Inv(r) && AtRest(r) && c.id !in r.ops && Perform(r, c).reply.Receipt?
    ensures Continue(ch, Perform(r, c).issued).acked == ch.acked + Plan(r, c.id, c.request)
    ensures DoubtOf(Perform(r, c).response).None?
  {
    var claimed := Claim(r, c.id, c.request);
    ClaimInv(r, c.id, c.request);
    DriveMovesCalls(claimed, c.id, c.net, ch);
    assert Rest(claimed.ops[c.id]) == Plan(r, c.id, c.request);
  }
}
