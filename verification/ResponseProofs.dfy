/**
  What every reachable response satisfies, and what follows for whole runs: one revision per
  completed operation, one phase change, a frozen plan per operation, exact receipts and retries.
*/
module ResponseProofs {
  import opened Options
  import opened CardFailures
  import opened CardChannel
  import opened ResponseProtocol

  // ---------------------------------------------------------------- the invariant

  /** A plan numbers its calls without gaps, one call per role, and closes the stream last if at all. */
  ghost predicate PlanOk(plan: seq<Call>, id: string, base: int, req: Request) {
    && |plan| > 0
    && (forall k :: 0 <= k < |plan| ==> plan[k].sequence == base + k + 1 && plan[k].uuid.operationId == id)
    && (forall j, k :: 0 <= j < k < |plan| ==> plan[j].uuid != plan[k].uuid)
    && (forall k :: 0 <= k < |plan| && plan[k].payload.Closing? ==> !req.Update? && k == |plan| - 1)
    && (forall k :: 0 <= k < |plan| && plan[k].payload.Replacement? ==> req.Replace?)
  }

  ghost predicate OpenOk(r: Response, id: string)
    requires id in r.ops && r.ops[id].Open?
  {
    var op := r.ops[id];
    && op.acked <= |op.plan|
    && (op.doubt ==> op.acked < |op.plan|)
    && (op.closed ==> op.doubt)
    && op.request.expected == r.revision
    && Screen(id, op.request).None?
    && (op.request.Replace? <==> r.phase != Streaming)
    && PlanOk(op.plan, id, r.nextSequence - op.acked, op.request)
  }

  ghost predicate DoneOk(r: Response, id: string)
    requires id in r.ops && r.ops[id].Done?
  {
    var op := r.ops[id];
    && op.revision == op.request.expected + 1
    && 2 <= op.revision <= r.revision
    && (op.request.Update? ==> op.phase == Streaming)
    && (op.request.Finish? ==> op.phase == op.request.phase == r.phase)
    && (op.request.Replace? ==> op.phase == r.phase)
  }

  ghost predicate DoneAs(r: Response, id: string, revision: nat) {
    id in r.ops && r.ops[id].Done? && r.ops[id].revision == revision
  }

  ghost predicate Held(r: Response, revision: nat) { exists id :: DoneAs(r, id, revision) }

  ghost predicate FinishedBy(r: Response, id: string) {
    id in r.ops && r.ops[id].Done? && r.ops[id].request.Finish?
  }

  /** The completed operations tell the whole story of the response. */
  ghost predicate History(r: Response) {
    && r.revision >= 1
    && (r.phase == Streaming || Terminal(r.phase))
    && (forall id :: id in r.ops && r.ops[id].Done? ==> DoneOk(r, id))
    // completed operations and revisions 2..revision are in bijection
    && (forall a, b, v :: DoneAs(r, a, v) && DoneAs(r, b, v) ==> a == b)
    && (forall v: nat :: 2 <= v <= r.revision ==> Held(r, v))
    // the response is terminal because exactly one finish made it so
    && (r.phase == Streaming ==> forall id :: id in r.ops && r.ops[id].Done? ==> r.ops[id].request.Update?)
    && (r.phase != Streaming ==> exists id :: FinishedBy(r, id))
    && (forall a, b :: FinishedBy(r, a) && FinishedBy(r, b) ==> a == b)
  }

  ghost predicate Inv(r: Response) {
    && r.nextSequence >= 0
    && (forall id :: id in r.ops && r.ops[id].Open? ==> r.pending == Some(id) && OpenOk(r, id))
    && (r.pending.Some? ==> r.pending.value in r.ops && r.ops[r.pending.value].Open?)
    && History(r)
  }

  /** Between requests no operation is left with every call acknowledged but not completed. */
  ghost predicate AtRest(r: Response) {
    r.pending.Some? && r.pending.value in r.ops && r.ops[r.pending.value].Open? ==>
      r.ops[r.pending.value].acked < |r.ops[r.pending.value].plan|
  }

  lemma TimelineCallsAreInOrder(r: Response, id: string, after: int, parts: Parts)
    ensures var calls := TimelineCalls(r, id, after, parts);
      && |calls| <= 2
      && (forall k :: 0 <= k < |calls| ==> calls[k].sequence == after + k + 1 && calls[k].uuid.operationId == id)
      && (forall k :: 0 <= k < |calls| ==> calls[k].payload.Body? || calls[k].payload.Header?)
      && (forall k :: 0 <= k < |calls| ==>
        calls[k].uuid.role == if calls[k].payload.Body? then TimelineRole else PanelRole)
      && (|calls| == 2 ==> calls[0].payload.Body? && calls[1].payload.Header?)
  {
  }

  lemma PlanIsOk(r: Response, id: string, req: Request)
    ensures PlanOk(Plan(r, id, req), id, r.nextSequence, req)
  {
    hide PlanOk, Plan;
    match req
    case Update(_, _, _, _) => UpdatePlanIsOk(r, id, req);
    case Finish(_, _, _, _, _, _) => FinishPlanIsOk(r, id, req);
    case Replace(_, _, _, _) => ReplacePlanIsOk(r, id, req);
  }

  lemma UpdatePlanIsOk(r: Response, id: string, req: Request)
    requires req.Update?
    ensures PlanOk(Plan(r, id, req), id, r.nextSequence, req)
  {
    var n := r.nextSequence;
    var first := Call(Answer(req.markdown), Uuid(ContentRole, id), n + 1);
    var middle := TimelineCalls(r, id, n + 1, req.timeline);
    assert Plan(r, id, req) == [first] + middle + [];
    hide PlanOk, Plan, TimelineCalls;
    TimelineCallsAreInOrder(r, id, n + 1, req.timeline);
    JoinedPlanIsOk([first], middle, [], id, n, req);
  }

  lemma FinishPlanIsOk(r: Response, id: string, req: Request)
    requires req.Finish?
    ensures PlanOk(Plan(r, id, req), id, r.nextSequence, req)
  {
    var n := r.nextSequence;
    var content :=
      if req.markdown != r.markdown then [Call(Answer(req.markdown), Uuid(ContentRole, id), n + 1)] else [];
    var middle := TimelineCalls(r, id, n + |content|, req.timeline);
    var last := Call(Closing(req.summary), Uuid(FinishRole, id), n + |content| + |middle| + 1);
    assert Plan(r, id, req) == content + middle + [last];
    hide PlanOk, Plan, TimelineCalls;
    TimelineCallsAreInOrder(r, id, n + |content|, req.timeline);
    JoinedPlanIsOk(content, middle, [last], id, n, req);
  }

  lemma ReplacePlanIsOk(r: Response, id: string, req: Request)
    requires req.Replace?
    ensures PlanOk(Plan(r, id, req), id, r.nextSequence, req)
  {
  }

  lemma JoinedPlanIsOk(content: seq<Call>, middle: seq<Call>, last: seq<Call>, id: string, base: int, req: Request)
    requires !req.Replace? && |content| <= 1 && |middle| <= 2 && |last| <= 1 && |content| + |last| > 0
    requires forall k :: 0 <= k < |content| ==>
      content[k].sequence == base + 1 && content[k].uuid == Uuid(ContentRole, id) && content[k].payload.Answer?
    requires forall k :: 0 <= k < |middle| ==>
      middle[k].sequence == base + |content| + k + 1 && middle[k].uuid.operationId == id
      && (middle[k].payload.Body? || middle[k].payload.Header?)
      && middle[k].uuid.role == (if middle[k].payload.Body? then TimelineRole else PanelRole)
    requires |middle| == 2 ==> middle[0].payload.Body? && middle[1].payload.Header?
    requires forall k :: 0 <= k < |last| ==>
      last[k].sequence == base + |content| + |middle| + 1 && last[k].uuid == Uuid(FinishRole, id)
      && last[k].payload.Closing? && req.Finish?
    ensures PlanOk(content + middle + last, id, base, req)
  {
    var plan := content + middle + last;
    forall k | 0 <= k < |plan|
      ensures k < |content| ==> plan[k] == content[k]
      ensures |content| <= k < |content| + |middle| ==> plan[k] == middle[k - |content|]
      ensures |content| + |middle| <= k ==> plan[k] == last[k - |content| - |middle|]
    {
    }
  }

  lemma OpenedInv(markdown: string, timeline: TimelineState)
    ensures Inv(Opened(markdown, timeline)) && AtRest(Opened(markdown, timeline))
  {
  }

  lemma HistoryFrame(r: Response, c: Response)
    requires History(r) && c.revision == r.revision && c.phase == r.phase
    requires forall id :: (id in r.ops && r.ops[id].Done?) <==> (id in c.ops && c.ops[id].Done?)
    requires forall id :: id in r.ops && r.ops[id].Done? ==> c.ops[id] == r.ops[id]
    ensures History(c)
  {
    forall v: nat | 2 <= v <= c.revision ensures Held(c, v) {
      assert Held(r, v);
      var x :| DoneAs(r, x, v);
      assert DoneAs(c, x, v);
    }
    assert forall a, v :: DoneAs(c, a, v) <==> DoneAs(r, a, v);
    assert forall a :: FinishedBy(c, a) <==> FinishedBy(r, a);
  }

  lemma ClaimInv(r: Response, id: string, req: Request)
    requires Inv(r) && Screen(id, req).None? && Refusal(r, id, req).None? && (id in r.ops ==> r.ops[id].Open?)
    ensures var c := Claim(r, id, req);
      Inv(c) && c.pending == Some(id) && id in c.ops && c.ops[id].Open? && !c.ops[id].closed && c.ops[id].request == req
  {
    if id !in r.ops {
      PlanIsOk(r, id, req);
      HistoryFrame(r, Claim(r, id, req));
    }
  }

  lemma AcknowledgeInv(r: Response, id: string)
    requires Inv(r) && id in r.ops && r.ops[id].Open? && !r.ops[id].closed && r.ops[id].acked < |r.ops[id].plan|
    ensures Inv(Acknowledge(r, id, r.ops[id].plan[r.ops[id].acked]))
  {
    var op := r.ops[id];
    var c := Acknowledge(r, id, op.plan[op.acked]);
    assert c.nextSequence - (op.acked + 1) == r.nextSequence - op.acked;
    assert c.ops == r.ops[id := op.(acked := op.acked + 1, doubt := false)];
    assert OpenOk(c, id);
    HistoryFrame(r, c);
  }

  lemma OpenOpChangeInv(r: Response, id: string, op: Op)
    requires Inv(r) && id in r.ops && r.ops[id].Open?
    requires op.Open? && op == r.ops[id].(doubt := op.doubt, closed := op.closed)
    requires op.acked < |op.plan| && (op.closed ==> op.doubt)
    ensures Inv(r.(ops := r.ops[id := op]))
  {
    HistoryFrame(r, r.(ops := r.ops[id := op]));
  }

  lemma AbandonInv(r: Response, id: string)
    requires Inv(r) && id in r.ops && r.ops[id].Open?
    ensures Inv(Abandon(r, id)) && Abandon(r, id).pending.None?
  {
    HistoryFrame(r, Abandon(r, id));
  }

  lemma CompleteInv(r: Response, id: string)
    requires Inv(r) && id in r.ops && r.ops[id].Open?
    ensures Inv(Complete(r, id)) && Complete(r, id).pending.None?
  {
    var c := Complete(r, id);
    assert forall x, v :: x != id ==> (DoneAs(c, x, v) <==> DoneAs(r, x, v));
    assert forall x :: x != id ==> (FinishedBy(c, x) <==> FinishedBy(r, x));
    forall v: nat | 2 <= v <= c.revision ensures Held(c, v) {
      if v == c.revision {
        assert DoneAs(c, id, v);
      } else {
        assert Held(r, v);
        var x :| DoneAs(r, x, v);
        assert DoneAs(c, x, v);
      }
    }
    if r.ops[id].request.Finish? {
      assert FinishedBy(c, id);
    } else if r.phase != Streaming {
      var x :| FinishedBy(r, x);
      assert x != id && FinishedBy(c, x);
    }
  }

  lemma {:induction false} DriveInv(r: Response, id: string, net: Net)
    requires Inv(r) && id in r.ops && r.ops[id].Open? && !r.ops[id].closed
    ensures var out := Drive(r, id, net); Inv(out.response) && AtRest(out.response)
    decreases if r.ops[id].acked < |r.ops[id].plan| then |r.ops[id].plan| - r.ops[id].acked else 0
  {
    var op := r.ops[id];
    if op.acked >= |op.plan| {
      CompleteInv(r, id);
    } else {
      match net.At(op.plan[op.acked].uuid.role)
      case NotIssued =>
      case Accepted =>
        AcknowledgeInv(r, id);
        DriveInv(Acknowledge(r, id, op.plan[op.acked]), id, net);
      case Failed(f) =>
        if IsDefinitive(f) {
          if op.doubt { OpenOpChangeInv(r, id, op.(closed := true)); } else { AbandonInv(r, id); }
        } else {
          OpenOpChangeInv(r, id, op.(doubt := op.doubt || IsAmbiguous(f)));
        }
    }
  }

  /** The request opens a new operation or continues the open one, rather than being refused or replayed. */
  predicate Drives(r: Response, c: Command) {
    && Screen(c.id, c.request).None? && WithinBudget(r, c.request) && Refusal(r, c.id, c.request).None?
    && (c.id in r.ops ==> r.ops[c.id].Open?)
  }

  lemma PerformInv(r: Response, c: Command)
    requires Inv(r) && AtRest(r)
    ensures Inv(Perform(r, c).response) && AtRest(Perform(r, c).response)
  {
    if Drives(r, c) {
      ClaimInv(r, c.id, c.request);
      DriveInv(Claim(r, c.id, c.request), c.id, c.net);
    }
  }

  lemma {:induction false} RunInv(s: Session, cmds: seq<Command>)
    requires Inv(s.response) && AtRest(s.response)
    ensures Inv(Run(s, cmds).response) && AtRest(Run(s, cmds).response)
    decreases |cmds|
  {
    if cmds != [] {
      PerformInv(s.response, cmds[0]);
      var out := Perform(s.response, cmds[0]);
      RunInv(Session(out.response, s.log + out.issued), cmds[1..]);
    }
  }

  // ---------------------------------------------------------------- one attempt

  function AcceptedCount(issued: seq<Attempt>): nat {
    if issued == [] then 0
    else if issued[|issued| - 1].outcome.Accepted? then |issued| else |issued| - 1
  }

  /** The calls of an attempt are the frozen plan from the first unacknowledged call on, in order. */
  ghost predicate ContinuesPlan(op: Op, issued: seq<Attempt>)
    requires op.Open?
  {
    && op.acked + |issued| <= |op.plan|
    && (forall i :: 0 <= i < |issued| ==> issued[i].call == op.plan[op.acked + i] && !issued[i].outcome.NotIssued?)
    && (forall i :: 0 <= i < |issued| - 1 ==> issued[i].outcome.Accepted?)
  }

  lemma PrefixedContinues(op: Op, issued: seq<Attempt>)
    requires op.Open? && op.acked < |op.plan|
    requires ContinuesPlan(op.(acked := op.acked + 1, doubt := false), issued)
    ensures ContinuesPlan(op, [Attempt(op.plan[op.acked], Accepted)] + issued)
    ensures AcceptedCount([Attempt(op.plan[op.acked], Accepted)] + issued) == 1 + AcceptedCount(issued)
  {
    var all := [Attempt(op.plan[op.acked], Accepted)] + issued;
    forall i | 0 <= i < |all|
      ensures all[i].call == op.plan[op.acked + i] && !all[i].outcome.NotIssued?
      ensures i < |all| - 1 ==> all[i].outcome.Accepted?
    {
      if i > 0 {
        assert all[i] == issued[i - 1];
      }
    }
    assert issued != [] ==> all[|all| - 1] == issued[|issued| - 1];
  }

  lemma {:induction false} DriveIssues(r: Response, id: string, net: Net)
    requires id in r.ops && r.ops[id].Open? && r.ops[id].acked <= |r.ops[id].plan|
    ensures var op, out := r.ops[id], Drive(r, id, net);
      && ContinuesPlan(op, out.issued)
      && (out.reply.Receipt? ==>
            op.acked + |out.issued| == |op.plan| && AcceptedCount(out.issued) == |out.issued|)
    decreases |r.ops[id].plan| - r.ops[id].acked
  {
    var op := r.ops[id];
    if op.acked < |op.plan| && net.At(op.plan[op.acked].uuid.role).Accepted? {
      var next := Acknowledge(r, id, op.plan[op.acked]);
      assert next.ops[id] == op.(acked := op.acked + 1, doubt := false);
      DriveIssues(next, id, net);
      PrefixedContinues(op, Drive(next, id, net).issued);
    }
  }

  /** An attempt ends in completion, in withdrawal, or with the same plan further along. */
  ghost predicate Settles(r: Response, id: string, out: Result)
    requires id in r.ops && r.ops[id].Open?
  {
    var op, c := r.ops[id], out.response;
    && (out.reply.Receipt? ==>
          && out.reply == Receipt(r.revision + 1, c.phase, false)
          && c.revision == r.revision + 1
          && id in c.ops && c.ops[id] == Done(op.request, r.revision + 1, c.phase)
          && c.phase == (if op.request.Finish? then op.request.phase else r.phase))
    && (out.reply.Error? ==> c.revision == r.revision && c.phase == r.phase)
    && (out.reply.Error? && id in c.ops ==>
          && c.pending == r.pending
          && c.ops[id].Open? && c.ops[id].plan == op.plan && c.ops[id].request == op.request
          && c.ops[id].acked == op.acked + AcceptedCount(out.issued))
    && (id !in c.ops ==> out.reply == Error(FeishuRejected))
  }

  lemma StopSettles(r: Response, id: string, net: Net)
    requires id in r.ops && r.ops[id].Open? && r.ops[id].acked <= |r.ops[id].plan|
    requires r.ops[id].acked < |r.ops[id].plan| ==> !net.At(r.ops[id].plan[r.ops[id].acked].uuid.role).Accepted?
    ensures Settles(r, id, Drive(r, id, net))
  {
  }

  /** What is left to do after an accepted call settles as the whole attempt does. */
  lemma SettlesFromNext(r: Response, next: Response, id: string, rest: Result, out: Result)
    requires id in r.ops && r.ops[id].Open? && id in next.ops
      && next.ops[id] == r.ops[id].(acked := r.ops[id].acked + 1, doubt := false)
    requires next.revision == r.revision && next.phase == r.phase && next.pending == r.pending
    requires Settles(next, id, rest) && out.response == rest.response && out.reply == rest.reply
    requires AcceptedCount(out.issued) == 1 + AcceptedCount(rest.issued)
    ensures Settles(r, id, out)
  {
  }

  lemma {:induction false} DriveSettles(r: Response, id: string, net: Net)
    requires id in r.ops && r.ops[id].Open? && r.ops[id].acked <= |r.ops[id].plan|
    ensures Settles(r, id, Drive(r, id, net))
    decreases |r.ops[id].plan| - r.ops[id].acked
  {
    var op := r.ops[id];
    if op.acked < |op.plan| && net.At(op.plan[op.acked].uuid.role).Accepted? {
      var next := Acknowledge(r, id, op.plan[op.acked]);
      assert next.ops[id] == op.(acked := op.acked + 1, doubt := false);
      hide Settles, AcceptedCount, ContinuesPlan;
      DriveIssues(next, id, net);
      DriveSettles(next, id, net);
      PrefixedContinues(op, Drive(next, id, net).issued);
      SettlesFromNext(r, next, id, Drive(next, id, net), Drive(r, id, net));
    } else {
      StopSettles(r, id, net);
    }
  }

  lemma {:induction false} DriveLeavesOthers(r: Response, id: string, net: Net, x: string)
    requires id in r.ops && r.ops[id].Open? && r.ops[id].acked <= |r.ops[id].plan| && x != id
    ensures var c := Drive(r, id, net).response;
      (x in c.ops <==> x in r.ops) && (x in r.ops ==> c.ops[x] == r.ops[x])
    decreases |r.ops[id].plan| - r.ops[id].acked
  {
    var op := r.ops[id];
    if op.acked < |op.plan| && net.At(op.plan[op.acked].uuid.role).Accepted? {
      DriveLeavesOthers(Acknowledge(r, id, op.plan[op.acked]), id, net, x);
    }
  }

  /**
    While an operation is pending, a request either issues nothing and changes nothing, or it is
    that same request under that same id and its calls continue the plan frozen at the first
    attempt: identical payload, UUID and sequence, in order, never an acknowledged call again.
  */
  lemma PendingOperationContinues(r: Response, c: Command)
    requires Inv(r) && AtRest(r) && r.pending.Some?
    ensures var id := r.pending.value; var op, out := r.ops[id], Perform(r, c);
      || (out.issued == [] && out.response == r)
      || (c.id == id && c.request == op.request && !op.closed && ContinuesPlan(op, out.issued)
          && (out.reply.Receipt? ==> out.reply == Receipt(r.revision + 1, out.response.phase, false))
          && (id in out.response.ops && out.response.ops[id].Open? ==>
                out.response.ops[id].plan == op.plan
                && out.response.ops[id].acked == op.acked + AcceptedCount(out.issued)))
  {
    if c.id == r.pending.value && Screen(c.id, c.request).None? && WithinBudget(r, c.request)
       && Refusal(r, c.id, c.request).None? {
      DriveIssues(r, c.id, c.net);
      DriveSettles(r, c.id, c.net);
    }
  }

  // ---------------------------------------------------------------- receipts, revisions, phase

  /**
    Optimistic concurrency is exact: a receipt always names the expected revision plus one; a
    first receipt is the only thing that moves the revision, by one; a repeated receipt, like
    every error that leaves the revision alone, changes no phase.
  */
  lemma ReceiptsAreExact(r: Response, c: Command)
    requires Inv(r) && AtRest(r)
    ensures var out := Perform(r, c);
      && (out.reply.Receipt? ==> out.reply.revision == c.request.expected + 1)
      && (out.reply.Receipt? && out.reply.duplicate ==> out.response == r && out.issued == [])
      && (out.reply.Receipt? && !out.reply.duplicate ==>
            out.response.revision == r.revision + 1 == out.reply.revision && out.reply.phase == out.response.phase)
      && (!(out.reply.Receipt? && !out.reply.duplicate) ==>
            out.response.revision == r.revision && out.response.phase == r.phase)
  {
    if Drives(r, c) {
      ClaimInv(r, c.id, c.request);
      DriveSettles(Claim(r, c.id, c.request), c.id, c.net);
    }
  }

  /** A completed operation keeps its record, hence its receipt, for the life of the response. */
  lemma {:induction false} CompletedIsForever(s: Session, cmds: seq<Command>, id: string)
    requires Inv(s.response) && AtRest(s.response) && id in s.response.ops && s.response.ops[id].Done?
    ensures id in Run(s, cmds).response.ops && Run(s, cmds).response.ops[id] == s.response.ops[id]
    ensures Run(s, cmds).response.revision >= s.response.revision
    decreases |cmds|
  {
    if cmds != [] {
      var r, c := s.response, cmds[0];
      var out := Perform(r, c);
      PerformInv(r, c);
      ReceiptsAreExact(r, c);
      if Drives(r, c) {
        ClaimInv(r, c.id, c.request);
        DriveLeavesOthers(Claim(r, c.id, c.request), c.id, c.net, id);
      }
      CompletedIsForever(Session(out.response, s.log + out.issued), cmds[1..], id);
    }
  }

  /** Over any run from Start, revisions 2..revision and completed operations match one to one. */
  lemma RevisionsAreCompletedOperations(markdown: string, timeline: TimelineState, cmds: seq<Command>)
    ensures var r := Run(Session(Opened(markdown, timeline), []), cmds).response;
      && (forall v: nat :: 2 <= v <= r.revision ==> Held(r, v))
      && (forall a, b, v :: DoneAs(r, a, v) && DoneAs(r, b, v) ==> a == b)
      && (forall a, v: nat :: DoneAs(r, a, v) ==> 2 <= v <= r.revision && v == r.ops[a].request.expected + 1)
  {
    OpenedInv(markdown, timeline);
    RunInv(Session(Opened(markdown, timeline), []), cmds);
  }

  /** The phase leaves Streaming at most once, for the phase of the one completed finish. */
  lemma {:induction false} PhaseChangesOnce(s: Session, cmds: seq<Command>)
    requires Inv(s.response) && AtRest(s.response)
    ensures var after := Run(s, cmds).response;
      && (s.response.phase != Streaming ==> after.phase == s.response.phase)
      && (after.phase != Streaming ==>
            exists id :: FinishedBy(after, id) && after.ops[id].phase == after.phase
                 && (forall b :: FinishedBy(after, b) ==> b == id))
    decreases |cmds|
  {
    RunInv(s, cmds);
    if cmds != [] {
      var r, c := s.response, cmds[0];
      var out := Perform(r, c);
      PerformInv(r, c);
      ReceiptsAreExact(r, c);
      if Drives(r, c) {
        ClaimInv(r, c.id, c.request);
        DriveSettles(Claim(r, c.id, c.request), c.id, c.net);
      }
      PhaseChangesOnce(Session(out.response, s.log + out.issued), cmds[1..]);
    }
  }

  /** Every incomplete record is the pending one, in every state any run can reach. */
  lemma IncompleteIsPending(markdown: string, timeline: TimelineState, cmds: seq<Command>)
    ensures var r := Run(Session(Opened(markdown, timeline), []), cmds).response;
      forall id :: (id in r.ops && r.ops[id].Open?) <==> r.pending == Some(id)
  {
    OpenedInv(markdown, timeline);
    RunInv(Session(Opened(markdown, timeline), []), cmds);
  }

  /** Once a call in doubt was definitively rejected, nothing moves the response ever again. */
  lemma {:induction false} GivingUpIsAbsorbing(s: Session, cmds: seq<Command>)
    requires Inv(s.response) && AtRest(s.response) && GaveUp(s.response)
    ensures Run(s, cmds) == s
    decreases |cmds|
  {
    if cmds != [] {
      PendingOperationContinues(s.response, cmds[0]);
      assert s.log + [] == s.log;
      GivingUpIsAbsorbing(s, cmds[1..]);
    }
  }

  /** How a response comes to be given up: a definitive rejection of the very call in doubt. */
  lemma GivingUpNeedsDoubt(r: Response, c: Command)
    requires Inv(r) && AtRest(r) && !GaveUp(r) && GaveUp(Perform(r, c).response)
    ensures r.pending == Some(c.id) && r.ops[c.id].doubt
    ensures Perform(r, c).reply == Error(OperationStateUnknown)
    ensures |Perform(r, c).issued| == 1 && Perform(r, c).issued[0].call == r.ops[c.id].plan[r.ops[c.id].acked]
  {
    ClaimInv(r, c.id, c.request);
    GivingUpWithinDrive(Claim(r, c.id, c.request), c.id, c.net);
  }

  lemma {:induction false} GivingUpWithinDrive(r: Response, id: string, net: Net)
    requires Inv(r) && id in r.ops && r.ops[id].Open? && !r.ops[id].closed
    ensures GaveUp(Drive(r, id, net).response) ==>
      r.ops[id].doubt && r.ops[id].acked < |r.ops[id].plan| && Drive(r, id, net).reply == Error(OperationStateUnknown)
      && |Drive(r, id, net).issued| == 1 && Drive(r, id, net).issued[0].call == r.ops[id].plan[r.ops[id].acked]
    decreases |r.ops[id].plan| - r.ops[id].acked
  {
    var op := r.ops[id];
    if op.acked < |op.plan| && net.At(op.plan[op.acked].uuid.role).Accepted? {
      var next := Acknowledge(r, id, op.plan[op.acked]);
      AcknowledgeInv(r, id);
      GivingUpWithinDrive(next, id, net);
    }
  }

  /**
    Until it is given up, a pending operation completes on the first retry the network lets
    through, exactly when the shared size budget, which is checked again, still admits it.
  */
  lemma RetryCompletesIffWithinBudget(r: Response)
    requires Inv(r) && AtRest(r) && r.pending.Some? && !GaveUp(r)
    ensures var id := r.pending.value; var req := r.ops[id].request;
      var out := Submit(r, id, req, ALL_ACCEPTED);
      && (out.reply.Receipt? <==> WithinBudget(r, req))
      && (out.reply.Receipt? ==>
            out.reply == Receipt(r.revision + 1, if req.Finish? then req.phase else r.phase, false)
            && |out.issued| == |r.ops[id].plan| - r.ops[id].acked)
  {
    AllAcceptedCompletes(r, r.pending.value);
    DriveIssues(r, r.pending.value, ALL_ACCEPTED);
    DriveSettles(r, r.pending.value, ALL_ACCEPTED);
  }

  lemma {:induction false} AllAcceptedCompletes(r: Response, id: string)
    requires id in r.ops && r.ops[id].Open? && r.ops[id].acked <= |r.ops[id].plan|
    ensures Drive(r, id, ALL_ACCEPTED).reply.Receipt?
    decreases |r.ops[id].plan| - r.ops[id].acked
  {
    var op := r.ops[id];
    if op.acked < |op.plan| {
      AllAcceptedCompletes(Acknowledge(r, id, op.plan[op.acked]), id);
    }
  }
}
