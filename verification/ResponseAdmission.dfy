/**
  What a request is answered, written out: when it is admitted, which error each refusal has,
  what a failed call is answered, and what a first receipt leaves of the daemon's own state.
*/
module ResponseAdmission {
  import opened Options
  import opened CardFailures
  import opened CardChannel
  import opened ResponseProtocol
  import opened ResponseProofs

  /**
    A request under a new id is admitted, and completes if the network lets its calls through,
    exactly when its id has 1 to 64 characters, its answer 1 to 30720, its timeline at most 30720
    and 200 for the title, its summary at most 200, answer and resulting timeline together at most
    30720 if the card has a timeline, nothing is pending, the expected revision is the current
    one, and the response streams, for Update and Finish, or is completed, failed or cancelled,
    for Replace. A Finish names one of these three as its outcome.
  */
  lemma AdmittedIff(r: Response, id: string, req: Request)
    requires Inv(r) && AtRest(r) && id !in r.ops
    ensures var reply := Submit(r, id, req, ALL_ACCEPTED).reply;
      (reply == Receipt(r.revision + 1, if req.Finish? then req.phase else r.phase, false))
      <==>
        && 1 <= |id| <= 64
        && req.expected == r.revision && r.pending == None
        && 1 <= |req.markdown| <= 30720
        && |req.timeline.markdown| <= 30720 && |req.timeline.title| <= 200
        && (req.Update? || |req.summary| <= 200)
        && (r.timeline.present ==>
              |req.markdown| + (if req.timeline.markdown == "" then |r.timeline.markdown| else |req.timeline.markdown|)
              <= 30720)
        && (if req.Replace? then r.phase in {Phase.Completed, Phase.Failed, Phase.Cancelled} else r.phase == Streaming)
        && (req.Finish? ==> req.phase in {Phase.Completed, Phase.Failed, Phase.Cancelled})
    ensures var reply := Submit(r, id, req, ALL_ACCEPTED).reply;
      reply.Receipt? ==> reply == Receipt(r.revision + 1, if req.Finish? then req.phase else r.phase, false)
  {
    var out := Submit(r, id, req, ALL_ACCEPTED);
    if Screen(id, req).None? && WithinBudget(r, req) && Refusal(r, id, req).None? {
      ClaimInv(r, id, req);
      AllAcceptedCompletes(Claim(r, id, req), id);
      DriveSettles(Claim(r, id, req), id, ALL_ACCEPTED);
    }
  }

  /** The errors that do not depend on the response at all, in the order in which they win. */
  lemma MalformedRequestsAreNamed(r: Response, id: string, req: Request, net: Net)
    requires Inv(r) && AtRest(r)
    ensures var reply := Submit(r, id, req, net).reply;
      var named := 1 <= |id| <= 64;
      var dated := named && req.expected >= 1;
      var decided := dated && (req.Finish? ==> req.phase in {Phase.Completed, Phase.Failed, Phase.Cancelled});
      && (reply == Error(MissingOperationId) <==> id == "")
      && (reply == Error(InvalidRevision) <==> named && req.expected == 0)
      && (reply == Error(InvalidOutcome) <==> dated && !decided)
      && (reply == Error(MissingMarkdown) <==> decided && req.markdown == "")
      && (reply == Error(FieldTooLarge) <==>
            || |id| > 64
            || (decided && req.markdown != ""
                && (|req.markdown| > 30720 || |req.timeline.markdown| > 30720 || |req.timeline.title| > 200
                    || (!req.Update? && |req.summary| > 200)
                    || (r.timeline.present
                        && |req.markdown|
                           + (if req.timeline.markdown == "" then |r.timeline.markdown| else |req.timeline.markdown|)
                           > 30720))))
  {
    DriveNeverScreens(r, id, req, net);
  }

  /** Well-formed, within every size limit, and within the budget the card's timeline leaves. */
  predicate WellFormed(r: Response, id: string, req: Request) {
    && 1 <= |id| <= 64 && req.expected >= 1
    && (req.Finish? ==> req.phase in {Phase.Completed, Phase.Failed, Phase.Cancelled})
    && 1 <= |req.markdown| <= 30720 && |req.timeline.markdown| <= 30720 && |req.timeline.title| <= 200
    && (req.Update? || |req.summary| <= 200)
    && (r.timeline.present ==>
          |req.markdown| + (if req.timeline.markdown == "" then |r.timeline.markdown| else |req.timeline.markdown|)
          <= 30720)
  }

  /**
    Why a well-formed request is refused: an id used for other content, a response in the wrong
    phase for a new operation, another operation pending, or the wrong revision, in that order.
  */
  lemma RefusalsAreNamed(r: Response, id: string, req: Request, net: Net)
    requires Inv(r) && AtRest(r) && WellFormed(r, id, req)
    ensures var reply := Submit(r, id, req, net).reply;
      var closed := r.phase in {Phase.Completed, Phase.Failed, Phase.Cancelled};
      && (reply == Error(OperationConflict) <==> id in r.ops && r.ops[id].request != req)
      && (reply == Error(ResponseClosed) <==> id !in r.ops && !req.Replace? && r.phase != Streaming)
      && (reply == Error(ResponseNotClosed) <==> id !in r.ops && req.Replace? && !closed)
      && (reply == Error(OperationInFlight) <==>
            id !in r.ops && (req.Replace? <==> r.phase != Streaming) && r.pending.Some?
            && !r.ops[r.pending.value].closed)
      && (reply == Error(RevisionConflict) <==>
            id !in r.ops && (req.Replace? <==> r.phase != Streaming) && r.pending.None? && req.expected != r.revision)
      && ((id !in r.ops && (req.Replace? <==> r.phase != Streaming)
           && r.pending.Some? && r.ops[r.pending.value].closed) ==> reply == Error(OperationStateUnknown))
      && (id in r.ops && r.ops[id].request == req && r.ops[id].Done? ==>
            reply == Receipt(r.ops[id].revision, r.ops[id].phase, true))
      && (reply.Receipt? && reply.duplicate ==> id in r.ops && r.ops[id].request == req && r.ops[id].Done?)
  {
    DriveNeverScreens(r, id, req, net);
  }

  lemma DriveNeverScreens(r: Response, id: string, req: Request, net: Net)
    requires Inv(r) && AtRest(r)
    ensures Drives(r, Command(id, req, net)) ==>
      var reply := Submit(r, id, req, net).reply;
      (reply.Receipt? && !reply.duplicate)
      || reply in {Error(FeishuUnavailable), Error(FeishuRejected), Error(OperationStateUnknown)}
    ensures Drives(r, Command(id, req, net)) && id !in r.ops ==> !GaveUp(Submit(r, id, req, net).response)
  {
    if Drives(r, Command(id, req, net)) {
      ClaimInv(r, id, req);
      DriveAnswers(Claim(r, id, req), id, net);
      if id !in r.ops { GivingUpWithinDrive(Claim(r, id, req), id, net); }
    }
  }

  // ---------------------------------------------------------------- failed calls

  predicate Refuses(o: Outcome) { o.Failed? && RefusedForGood(o.failure) }

  /**
    How an attempt on an operation is answered: a refused call withdraws the operation, or gives it
    up if that very call was in doubt before; anything else that stops it keeps it for a retry.
  */
  ghost predicate AnswersItsCalls(r: Response, id: string, out: Result)
    requires id in r.ops && r.ops[id].Open?
  {
    var refused := out.issued != [] && Refuses(out.issued[|out.issued| - 1].outcome);
    var doubted := r.ops[id].doubt && |out.issued| == 1;
    && (out.reply == Error(FeishuRejected) <==> refused && !doubted)
    && (out.reply == Error(FeishuRejected) <==> id !in out.response.ops)
    && (out.reply == Error(OperationStateUnknown) <==> refused && doubted)
    && (out.reply == Error(OperationStateUnknown) <==> GaveUp(out.response))
    && (out.reply == Error(FeishuUnavailable) <==> !refused && id in out.response.ops && out.response.ops[id].Open?)
    && (out.reply.Receipt? <==> id in out.response.ops && out.response.ops[id].Done?)
    && (out.reply.Error? ==> out.reply.code in {FeishuUnavailable, FeishuRejected, OperationStateUnknown})
    && (out.reply.Receipt? ==> !out.reply.duplicate)
  }

  lemma StopAnswers(r: Response, id: string, net: Net)
    requires Inv(r) && id in r.ops && r.ops[id].Open? && !r.ops[id].closed
    requires r.ops[id].acked < |r.ops[id].plan| ==> !net.At(r.ops[id].plan[r.ops[id].acked].uuid.role).Accepted?
    ensures AnswersItsCalls(r, id, Drive(r, id, net))
  {
    assert OpenOk(r, id) && r.pending == Some(id);
    hide PlanOk, History, Screen;
  }

  lemma AnswersFromNext(r: Response, next: Response, id: string, call: Call, rest: Result, out: Result)
    requires id in r.ops && r.ops[id].Open? && id in next.ops && next.ops[id].Open? && !next.ops[id].doubt
    requires AnswersItsCalls(next, id, rest) && out.response == rest.response && out.reply == rest.reply
    requires out.issued == [Attempt(call, Accepted)] + rest.issued
    ensures AnswersItsCalls(r, id, out)
  {
    assert rest.issued == [] ==> out.issued[|out.issued| - 1].outcome == Accepted;
    assert rest.issued != [] ==> out.issued[|out.issued| - 1] == rest.issued[|rest.issued| - 1];
  }

  /** The answer of every attempt follows from the outcome of the last call it issued. */
  lemma {:induction false} DriveAnswers(r: Response, id: string, net: Net)
    requires Inv(r) && id in r.ops && r.ops[id].Open? && !r.ops[id].closed
    ensures AnswersItsCalls(r, id, Drive(r, id, net))
    decreases |r.ops[id].plan| - r.ops[id].acked
  {
    hide AnswersItsCalls;
    var op := r.ops[id];
    assert op.acked <= |op.plan| by { assert OpenOk(r, id); }
    if op.acked < |op.plan| && net.At(op.plan[op.acked].uuid.role).Accepted? {
      var call := op.plan[op.acked];
      var next := Acknowledge(r, id, call);
      AcknowledgeInv(r, id);
      assert next.ops[id] == op.(acked := op.acked + 1, doubt := false);
      hide Inv;
      DriveAnswers(next, id, net);
      AnswersFromNext(r, next, id, call, Drive(next, id, net), Drive(r, id, net));
    } else {
      StopAnswers(r, id, net);
    }
  }

  /** The same for every request that reaches its calls, first or repeated, in any state. */
  lemma FailedCallsAreNamed(r: Response, c: Command)
    requires Inv(r) && AtRest(r) && Drives(r, c)
    ensures AnswersItsCalls(Claim(r, c.id, c.request), c.id, Perform(r, c))
  {
    ClaimInv(r, c.id, c.request);
    DriveAnswers(Claim(r, c.id, c.request), c.id, c.net);
  }

  // ---------------------------------------------------------------- the shadow after a receipt

  /** The part asked for, or what was there before. */
  function Kept(wanted: string, before: string): string { if wanted == "" then before else wanted }

  /**
    After the first attempt of an operation completed at once, the daemon holds the answer of an
    Update, none after a Finish and the old one after a Replace; the timeline, if the card has
    one, with the parts asked for; and nothing is pending.
  */
  lemma ReceiptLeavesTheShadow(r: Response, id: string, req: Request)
    requires Inv(r) && AtRest(r) && id !in r.ops && Submit(r, id, req, ALL_ACCEPTED).reply.Receipt?
    ensures var after := Submit(r, id, req, ALL_ACCEPTED).response;
      && after.pending == None
      && after.ops == r.ops[id := Done(req, r.revision + 1, after.phase)]
      && after.phase == (if req.Finish? then req.phase else r.phase)
      && after.markdown == (if req.Update? then req.markdown else if req.Finish? then "" else r.markdown)
      && after.timeline == (if r.timeline.present
                            then TimelineState(true, Kept(req.timeline.markdown, r.timeline.markdown),
                                               Kept(req.timeline.title, r.timeline.title))
                            else r.timeline)
  {
    var c := Claim(r, id, req);
    ClaimInv(r, id, req);
    DriveFolds(c, id);
    assert c.ops[id].plan[0..] == Plan(r, id, req);
    FoldOfPlan(r, id, req);
    hide Fold, Plan, Inv;
  }

  /** What the daemon holds of the card: its answer and its timeline. */
  datatype Shadow = Shadow(markdown: string, timeline: TimelineState)

  function Fold(s: Shadow, calls: seq<Call>): Shadow
    decreases |calls|
  {
    if calls == [] then s
    else
      var next := match calls[0].payload
        case Answer(text) => s.(markdown := text)
        case Body(text) => s.(timeline := s.timeline.(markdown := text))
        case Header(title) => s.(timeline := s.timeline.(title := title))
        case Closing(_) => s
        case Replacement(_, _, _) => s;
      Fold(next, calls[1..])
  }

  /** What becomes of an operation whose calls all go through: its record, and the shadow of those calls. */
  ghost predicate EndsIn(r: Response, id: string, out: Response)
    requires id in r.ops && r.ops[id].Open? && r.ops[id].acked <= |r.ops[id].plan|
  {
    var req := r.ops[id].request;
    var end := Fold(Shadow(r.markdown, r.timeline), r.ops[id].plan[r.ops[id].acked..]);
    && out.pending == None
    && out.phase == (if req.Finish? then req.phase else r.phase)
    && out.ops == r.ops[id := Done(req, r.revision + 1, out.phase)]
    && out.markdown == (if req.Finish? then "" else end.markdown)
    && out.timeline == (if req.Replace? && end.timeline.present
                        then end.timeline.(markdown := Kept(req.timeline.markdown, end.timeline.markdown),
                                           title := Kept(req.timeline.title, end.timeline.title))
                        else end.timeline)
  }

  lemma {:induction false} DriveFolds(r: Response, id: string)
    requires id in r.ops && r.ops[id].Open? && r.ops[id].acked <= |r.ops[id].plan|
    ensures EndsIn(r, id, Drive(r, id, ALL_ACCEPTED).response)
    decreases |r.ops[id].plan| - r.ops[id].acked
  {
    var op := r.ops[id];
    if op.acked < |op.plan| {
      hide EndsIn, Fold;
      var next := Acknowledge(r, id, op.plan[op.acked]);
      DriveFolds(next, id);
      EndsFromNext(r, next, id, Drive(next, id, ALL_ACCEPTED).response);
    }
  }

  lemma EndsFromNext(r: Response, next: Response, id: string, out: Response)
    requires id in r.ops && r.ops[id].Open? && r.ops[id].acked < |r.ops[id].plan|
    requires next == Acknowledge(r, id, r.ops[id].plan[r.ops[id].acked]) && EndsIn(next, id, out)
    ensures EndsIn(r, id, out)
  {
    var op := r.ops[id];
    AcknowledgeFolds(r, id);
    AcknowledgeMovesOn(r, id);
    hide Fold, Acknowledge;
    assert next.ops[id].plan[next.ops[id].acked..] == op.plan[op.acked..][1..];
    assert next.ops[id := Done(op.request, r.revision + 1, out.phase)]
        == r.ops[id := Done(op.request, r.revision + 1, out.phase)];
  }

  lemma AcknowledgeMovesOn(r: Response, id: string)
    requires id in r.ops && r.ops[id].Open? && r.ops[id].acked < |r.ops[id].plan|
    ensures var op := r.ops[id];
      Acknowledge(r, id, op.plan[op.acked]).ops == r.ops[id := op.(acked := op.acked + 1, doubt := false)]
  {
  }

  lemma AcknowledgeFolds(r: Response, id: string)
    requires id in r.ops && r.ops[id].Open? && r.ops[id].acked < |r.ops[id].plan|
    ensures var op := r.ops[id]; var next := Acknowledge(r, id, op.plan[op.acked]);
      && Fold(Shadow(r.markdown, r.timeline), op.plan[op.acked..])
         == Fold(Shadow(next.markdown, next.timeline), op.plan[op.acked..][1..])
      && next.phase == r.phase && next.revision == r.revision
  {
    var op := r.ops[id];
    assert op.plan[op.acked..][0] == op.plan[op.acked];
  }

  lemma {:induction false} FoldBoth(s: Shadow, a: seq<Call>, b: seq<Call>)
    ensures Fold(s, a + b) == Fold(Fold(s, a), b)
    decreases |a|
  {
    if a == [] {
      assert a + b == b;
    } else {
      assert (a + b)[0] == a[0] && (a + b)[1..] == a[1..] + b;
      var first := Fold(s, [a[0]]);
      FoldOne(s, a[0]);
      assert Fold(s, a) == Fold(first, a[1..]) && Fold(s, a + b) == Fold(first, (a + b)[1..]);
      FoldBoth(first, a[1..], b);
    }
  }

  lemma FoldOne(s: Shadow, call: Call)
    ensures Fold(s, []) == s
    ensures Fold(s, [call]) ==
      match call.payload
      case Answer(text) => s.(markdown := text)
      case Body(text) => s.(timeline := s.timeline.(markdown := text))
      case Header(title) => s.(timeline := s.timeline.(title := title))
      case Closing(_) => s
      case Replacement(_, _, _) => s
  {
    assert [call][1..] == [];
  }

  lemma FoldOfTimeline(r: Response, id: string, after: int, parts: Parts, markdown: string)
    ensures Fold(Shadow(markdown, r.timeline), TimelineCalls(r, id, after, parts)) ==
      Shadow(markdown,
             if r.timeline.present
             then TimelineState(true, Kept(parts.markdown, r.timeline.markdown), Kept(parts.title, r.timeline.title))
             else r.timeline)
  {
    var s, calls := Shadow(markdown, r.timeline), TimelineCalls(r, id, after, parts);
    var body, header := if calls != [] then calls[..1] else [], if calls != [] then calls[1..] else [];
    assert calls == body + header;
    FoldBoth(s, body, header);
    var none := Call(Closing(""), Uuid(FinishRole, id), 0);
    FoldOne(s, if |calls| >= 1 then calls[0] else none);
    FoldOne(Fold(s, body), if |calls| == 2 then calls[1] else none);
    assert |calls| >= 1 ==> body == [calls[0]];
    assert |calls| == 2 ==> header == [calls[1]];
    assert |calls| == 1 ==> header == [];
    hide Fold;
  }

  lemma FoldOfPlan(r: Response, id: string, req: Request)
    ensures var end := Fold(Shadow(r.markdown, r.timeline), Plan(r, id, req));
      if req.Replace? then end == Shadow(r.markdown, r.timeline)
      else
        && (req.Update? ==> end.markdown == req.markdown)
        && end.timeline == (if r.timeline.present
                            then TimelineState(true, Kept(req.timeline.markdown, r.timeline.markdown),
                                               Kept(req.timeline.title, r.timeline.title))
                            else r.timeline)
  {
    var s, plan, n := Shadow(r.markdown, r.timeline), Plan(r, id, req), r.nextSequence;
    if req.Replace? {
      assert plan == [plan[0]] + [plan[1]];
      FoldBoth(s, [plan[0]], [plan[1]]);
      FoldOne(s, plan[0]);
      FoldOne(s, plan[1]);
    } else {
      var answer := Call(Answer(req.markdown), Uuid(ContentRole, id), n + 1);
      var content := if req.Update? || req.markdown != r.markdown then [answer] else [];
      var parts := TimelineCalls(r, id, n + |content|, req.timeline);
      var summary := if req.Update? then "" else req.summary;
      var closing := Call(Closing(summary), Uuid(FinishRole, id), n + |content + parts| + 1);
      var last := if req.Finish? then [closing] else [];
      assert plan == content + parts + last;
      hide Plan, TimelineCalls, Fold;
      FoldBoth(s, content + parts, last);
      FoldBoth(s, content, parts);
      FoldOne(s, answer);
      FoldOfTimeline(r, id, n + |content|, req.timeline, if content == [] then r.markdown else req.markdown);
      FoldOne(Fold(s, content + parts), closing);
    }
  }
}
