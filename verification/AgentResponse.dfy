/** The operation record of a response: up to four call slots, each with its own progress flags. */
module OperationRecords {
  import opened Options
  import opened CardChannel
  import opened ResponseProtocol

  /** One planned call of an operation; sequence 0 means the operation makes no such call. */
  datatype CallSlot = CallSlot(payload: Payload, uuid: Uuid, sequence: int, done: bool, ambiguous: bool, closed: bool) {
    function Call(): Call { CardChannel.Call(payload, uuid, sequence) }

    function Calls(): seq<Call> { if sequence == 0 then [] else [Call()] }

    function Acks(): nat { if sequence != 0 && done then 1 else 0 }

    predicate Untouched() { !done && !ambiguous && !closed }

    predicate Outstanding() { sequence != 0 && !done }

    predicate Ok() { sequence >= 0 && (sequence == 0 ==> Untouched()) && (done ==> !closed) }
  }

  const EMPTY_SLOT := CallSlot(Answer(""), Uuid(ContentRole, ""), 0, false, false, false)

  function Planned(call: Call): CallSlot { CallSlot(call.payload, call.uuid, call.sequence, false, false, false) }

  /** The slots of a new record: untouched, each in its role, and those the kind of request needs. */
  predicate SlotsFor(id: string, req: Request, content: CallSlot, body: CallSlot, panel: CallSlot, settings: CallSlot) {
    && content.Ok() && body.Ok() && panel.Ok() && settings.Ok()
    && content.Untouched() && body.Untouched() && panel.Untouched() && settings.Untouched()
    && (content.sequence != 0 ==> content.payload.Answer? && content.uuid == Uuid(ContentRole, id))
    && (body.sequence != 0 ==> body.payload.Body? && body.uuid == Uuid(TimelineRole, id))
    && (panel.sequence != 0 ==>
          (if req.Replace? then panel.payload.Replacement? && panel.uuid == Uuid(ReplaceRole, id)
           else panel.payload.Header? && panel.uuid == Uuid(PanelRole, id)))
    && (settings.sequence != 0 ==>
          settings.payload.Closing?
          && settings.uuid == Uuid(if req.Replace? then ReplaceSettingsRole else FinishRole, id))
    && match req
       case Update(_, _, _, _) => content.sequence != 0 && settings.sequence == 0
       case Finish(_, _, _, _, _, _) => settings.sequence != 0
       case Replace(_, _, _, _) =>
         content.sequence == 0 && body.sequence == 0 && panel.sequence != 0 && settings.sequence != 0
  }

  lemma FinishPlanIs(r: Response, id: string, req: Request, content: seq<Call>, body: seq<Call>, panel: seq<Call>)
    requires req.Finish?
    requires content ==
      if req.markdown != r.markdown then [Call(Answer(req.markdown), Uuid(ContentRole, id), r.nextSequence + 1)] else []
    requires body + panel == TimelineCalls(r, id, r.nextSequence + |content|, req.timeline)
    ensures Plan(r, id, req) == content + body + panel
      + [Call(Closing(req.summary), Uuid(FinishRole, id), r.nextSequence + |content| + |body + panel| + 1)]
  {
    assert content + (body + panel) == content + body + panel;
  }

  datatype SlotName = ContentSlot | TimelineSlot | PanelSlot | SettingsSlot

  datatype Operation = Operation(
    request: Request,
    revision: nat,
    phase: Phase,
    content: CallSlot,
    timeline: CallSlot,
    panel: CallSlot,
    settings: CallSlot,
    complete: bool)
  {
    predicate Unplanned() {
      content == EMPTY_SLOT && timeline == EMPTY_SLOT && panel == EMPTY_SLOT && settings == EMPTY_SLOT
    }

    function Compact(): Operation {
      this.(content := EMPTY_SLOT, timeline := EMPTY_SLOT, panel := EMPTY_SLOT, settings := EMPTY_SLOT)
    }

    predicate OutcomeUnknown() { content.closed || timeline.closed || panel.closed || settings.closed }

    /** The calls run in slot order, and a slot is touched only after the earlier ones are done. */
    predicate InOrder() {
      && (content.Outstanding() ==> timeline.Untouched() && panel.Untouched() && settings.Untouched())
      && (timeline.Outstanding() ==> panel.Untouched() && settings.Untouched())
      && (panel.Outstanding() ==> settings.Untouched())
    }

    predicate Valid(id: string) {
      && (complete ==> Unplanned())
      && content.Ok() && timeline.Ok() && panel.Ok() && settings.Ok()
      && InOrder()
      && (content.sequence != 0 ==> content.payload.Answer? && content.uuid == Uuid(ContentRole, id))
      && (timeline.sequence != 0 ==> timeline.payload.Body? && timeline.uuid == Uuid(TimelineRole, id))
      && (panel.sequence != 0 ==>
            (if request.Replace? then panel.payload.Replacement? && panel.uuid == Uuid(ReplaceRole, id)
             else panel.payload.Header? && panel.uuid == Uuid(PanelRole, id)))
      && (settings.sequence != 0 ==>
            settings.payload.Closing?
            && settings.uuid == Uuid(if request.Replace? then ReplaceSettingsRole else FinishRole, id))
    }

    /** A record is planned as soon as it exists; the slots tested are the ones the code tests. */
    predicate HasPlan() {
      match request
      case Update(_, _, _, _) => content.sequence != 0 && settings.sequence == 0
      case Finish(_, _, _, _, _, _) => settings.sequence != 0
      case Replace(_, _, _, _) =>
        content.sequence == 0 && timeline.sequence == 0 && panel.sequence != 0 && settings.sequence != 0
    }

    function Plan(): seq<Call> { content.Calls() + timeline.Calls() + panel.Calls() + settings.Calls() }

    predicate InDoubt() {
      || (content.Outstanding() && content.ambiguous) || (timeline.Outstanding() && timeline.ambiguous)
      || (panel.Outstanding() && panel.ambiguous) || (settings.Outstanding() && settings.ambiguous)
    }

    /** What the record means to the protocol: a plan, a prefix of it acknowledged, two flags. */
    function Value(): Op {
      if complete then Done(request, revision, phase)
      else
        var acked := content.Acks() + timeline.Acks() + panel.Acks() + settings.Acks();
        Open(request, Plan(), acked, InDoubt(), OutcomeUnknown())
    }

    function Slot(name: SlotName): CallSlot {
      match name
      case ContentSlot => content
      case TimelineSlot => timeline
      case PanelSlot => panel
      case SettingsSlot => settings
    }

    function SetSlot(name: SlotName, slot: CallSlot): Operation {
      match name
      case ContentSlot => this.(content := slot)
      case TimelineSlot => this.(timeline := slot)
      case PanelSlot => this.(panel := slot)
      case SettingsSlot => this.(settings := slot)
    }

    /** Every slot before this one is done or unused, so this is where the plan stands. */
    predicate Reached(name: SlotName) {
      && Slot(name).Outstanding()
      && (name != ContentSlot ==> !content.Outstanding())
      && (name == PanelSlot || name == SettingsSlot ==> !timeline.Outstanding())
      && (name == SettingsSlot ==> !panel.Outstanding())
    }

    lemma ReachedIsNext(id: string, name: SlotName)
      requires Valid(id) && !complete && Reached(name)
      ensures Value().Open? && Slot(name).sequence > 0
      ensures Value().acked < |Value().plan| && Value().plan[Value().acked] == Slot(name).Call()
      ensures Value().doubt == Slot(name).ambiguous && Value().closed == Slot(name).closed
    {
    }

    /** Marking the slot reached moves the meaning of the record by exactly one step. */
    lemma MarkingDone(id: string, name: SlotName)
      requires Valid(id) && !complete && Reached(name) && !OutcomeUnknown()
      ensures var op := SetSlot(name, Slot(name).(done := true));
        && (HasPlan() ==> op.HasPlan()) && !op.complete && op.Valid(id) && !op.OutcomeUnknown()
        && Value().Open? && op.Value() == Value().(acked := Value().acked + 1, doubt := false)
    {
    }

    lemma MarkingDoubt(id: string, name: SlotName)
      requires Valid(id) && !complete && Reached(name) && !OutcomeUnknown()
      ensures var op := SetSlot(name, Slot(name).(ambiguous := true));
        && (HasPlan() ==> op.HasPlan()) && op.Valid(id)
        && Value().Open? && op.Value() == Value().(doubt := true)
    {
    }

    lemma MarkingClosed(id: string, name: SlotName)
      requires Valid(id) && !complete && Reached(name) && !OutcomeUnknown() && Slot(name).ambiguous
      ensures var op := SetSlot(name, Slot(name).(closed := true));
        && (HasPlan() ==> op.HasPlan()) && op.Valid(id)
        && Value().Open? && op.Value() == Value().(closed := true)
    {
    }

    lemma CompactedRecord(id: string)
      requires complete
      ensures Compact().Valid(id) && Compact().Value() == Done(request, revision, phase)
    {
    }

    /** A record just planned stands at the start of its plan. */
    lemma FreshRecord(id: string)
      requires !complete && SlotsFor(id, request, content, timeline, panel, settings)
      ensures Valid(id) && HasPlan() && !OutcomeUnknown()
      ensures var plan := content.Calls() + timeline.Calls() + panel.Calls() + settings.Calls();
        Value() == Open(request, plan, 0, false, false)
    {
    }

    /** With every slot done or unused the plan is fully acknowledged. */
    lemma NothingOutstanding(id: string)
      requires Valid(id) && !complete && !content.Outstanding() && !timeline.Outstanding()
      requires !panel.Outstanding() && !settings.Outstanding()
      ensures Value().Open? && Value().request == request && Value().acked == |Value().plan|
    {
    }
  }
}

/**
  The response object: fields updated in place, one operation record per id. Every method is
  proved to do what ResponseProtocol says, call for call.
*/
module AgentResponses {
  import opened Options
  import opened CardFailures
  import opened CardChannel
  import opened ResponseProtocol
  import opened OperationRecords

  lemma TimelineCallsReadTheShadow(a: Response, b: Response, id: string, after: int, parts: Parts)
    requires a.timeline == b.timeline
    ensures TimelineCalls(a, id, after, parts) == TimelineCalls(b, id, after, parts)
  {
  }

  lemma ReplacementReadsTheShadow(a: Response, b: Response, req: Request)
    requires req.Replace? && a.timeline == b.timeline
    ensures ReplacementOf(a, req) == ReplacementOf(b, req)
  {
  }

  lemma PlanReadsTheShadow(a: Response, b: Response, id: string, req: Request)
    requires a.nextSequence == b.nextSequence && a.markdown == b.markdown && a.timeline == b.timeline
    ensures Plan(a, id, req) == Plan(b, id, req)
  {
    var n := a.nextSequence;
    match req
    case Update(_, _, timeline, _) =>
      TimelineCallsReadTheShadow(a, b, id, n + 1, timeline);
      hide TimelineCalls;
    case Finish(_, _, markdown, _, timeline, _) =>
      TimelineCallsReadTheShadow(a, b, id, if markdown != a.markdown then n + 1 else n, timeline);
      hide TimelineCalls;
    case Replace(_, _, _, _) =>
      ReplacementReadsTheShadow(a, b, req);
      hide ReplacementOf;
  }

  class AgentResponse {
    var phase: Phase
    var revision: nat
    var markdown: string
    var timeline: TimelineState
    var nextSequence: int
    var pendingOp: string
    var operations: map<string, Operation>
    /** What each record means to the protocol. */
    ghost var records: map<string, Op>
    /** Every call issued so far, with what came back. */
    ghost var log: seq<Attempt>

    constructor (markdown: string, timeline: TimelineState)
      ensures Valid() && State() == Opened(markdown, timeline) && log == []
    {
      phase, revision, nextSequence, pendingOp := Streaming, 1, 0, "";
      this.markdown, this.timeline := markdown, timeline;
      operations, records, log := map[], map[], [];
    }

    ghost predicate Valid()
      reads this
    {
      && nextSequence >= 0
      && "" !in operations
      && operations.Keys == records.Keys
      && (forall id :: id in operations ==> Means(id, operations[id], records[id]))
    }

    static ghost predicate Means(id: string, op: Operation, record: Op) {
      op.Valid(id) && (!op.complete ==> op.HasPlan()) && op.Value() == record
    }

    ghost function State(): Response
      reads this
    {
      Response(phase, revision, markdown, timeline, nextSequence,
               if pendingOp == "" then None else Some(pendingOp),
               records)
    }

    /** The record of the operation in progress: open, not given up, planned. */
    ghost predicate Working(id: string)
      reads this
    {
      Valid() && id in operations && !operations[id].complete && !operations[id].OutcomeUnknown()
    }

    predicate WithinCardBudget(markdown: string, parts: Parts)
      reads this
    {
      var effective := if parts.markdown != "" then parts.markdown else timeline.markdown;
      !timeline.present || |markdown| + |effective| <= MAX_CARD_BYTES
    }

    /** Claims the id with a new, still unplanned record, or finds the record of the same request. */
    method BeginOperation(id: string, req: Request) returns (error: Option<ErrorCode>)
      requires Valid() && id != ""
      modifies this`operations, this`pendingOp
      ensures error == Refusal(old(State()), id, req)
      ensures error.Some? || id in old(operations) ==> operations == old(operations) && pendingOp == old(pendingOp)
      ensures error.None? && id in old(operations) ==> operations[id].request == req && !operations[id].OutcomeUnknown()
      ensures error.None? && id !in old(operations) ==>
        pendingOp == id && id in operations && operations == old(operations)[id := operations[id]]
        && operations[id].Unplanned() && !operations[id].complete && operations[id].request == req
    {
      if id in operations {
        var existing := operations[id];
        if existing.request != req { return Some(OperationConflict); }
        if existing.OutcomeUnknown() { return Some(OperationStateUnknown); }
        return None;
      }
      if !req.Replace? {
        if phase != Streaming { return Some(ResponseClosed); }
      } else {
        if phase == Streaming || phase == Phase.Unspecified { return Some(ResponseNotClosed); }
      }
      if pendingOp != "" {
        if pendingOp in operations && operations[pendingOp].OutcomeUnknown() {
          return Some(OperationStateUnknown);
        }
        return Some(OperationInFlight);
      }
      if req.expected != revision { return Some(RevisionConflict); }
      operations := operations[
        id := Operation(req, 0, Phase.Unspecified, EMPTY_SLOT, EMPTY_SLOT, EMPTY_SLOT, EMPTY_SLOT, false)];
      pendingOp := id;
      error := None;
    }

    method AbortOperation(id: string)
      modifies this`operations, this`pendingOp
      ensures operations == old(operations) - {id}
      ensures pendingOp == if old(pendingOp) == id then "" else old(pendingOp)
    {
      operations := operations - {id};
      if pendingOp == id { pendingOp := ""; }
    }

    /** Reserves numbers and UUIDs for the timeline calls, continuing from `after` if it is not 0. */
    method PlanTimelineCalls(id: string, after: int, parts: Parts) returns (body: CallSlot, panel: CallSlot, next: int)
      requires nextSequence >= 0 && after >= 0
      ensures var from := if after == 0 then nextSequence else after;
        var calls := TimelineCalls(State(), id, from, parts);
        body.Calls() + panel.Calls() == calls && next == from + |calls|
      ensures body.Ok() && body.Untouched() && panel.Ok() && panel.Untouched()
      ensures body.sequence != 0 ==> body.payload.Body? && body.uuid == Uuid(TimelineRole, id)
      ensures panel.sequence != 0 ==> panel.payload.Header? && panel.uuid == Uuid(PanelRole, id)
    {
      body, panel, next := EMPTY_SLOT, EMPTY_SLOT, after;
      if next == 0 { next := nextSequence; }
      if !timeline.present { return; }
      if parts.markdown != "" && parts.markdown != timeline.markdown {
        next := next + 1;
        body := Planned(Call(Body(parts.markdown), Uuid(TimelineRole, id), next));
      }
      if parts.title != "" && parts.title != timeline.title {
        next := next + 1;
        panel := Planned(Call(Header(parts.title), Uuid(PanelRole, id), next));
      }
    }

    /** The shadow of the card follows an acknowledged call; a replacement waits for its completion. */
    method Absorb(payload: Payload)
      modifies this`markdown, this`timeline
      ensures markdown == if payload.Answer? then payload.text else old(markdown)
      ensures timeline ==
        if payload.Body? then old(timeline).(markdown := payload.text)
        else if payload.Header? then old(timeline).(title := payload.title) else old(timeline)
    {
      match payload {
        case Answer(text) => markdown := text;
        case Body(text) => timeline := timeline.(markdown := text);
        case Header(title) => timeline := timeline.(title := title);
        case Closing(_) =>
        case Replacement(_, _, _) =>
      }
    }

    /** Feishu accepted the call: the record and the shadow of the card follow at once. */
    method CommitCall(id: string, name: SlotName)
      requires Working(id) && operations[id].Reached(name)
      modifies this`nextSequence, this`markdown, this`timeline, this`operations, this`records
      ensures Working(id) && records[id].Open?
      ensures State() == Acknowledge(old(State()), id, old(operations[id].Slot(name).Call()))
      ensures operations[id] == old(operations[id]).SetSlot(name, old(operations[id].Slot(name)).(done := true))
    {
      hide Operation.Valid, Operation.Value, Operation.HasPlan, Operation.OutcomeUnknown, Operation.Reached;
      hide Operation.SetSlot, Operation.Slot;
      var op := operations[id];
      var slot := op.Slot(name);
      op.ReachedIsNext(id, name);
      op.MarkingDone(id, name);
      operations := operations[id := op.SetSlot(name, slot.(done := true))];
      records := records[id := records[id].(acked := records[id].acked + 1, doubt := false)];
      nextSequence := slot.sequence;
      Absorb(slot.payload);
      assert Means(id, operations[id], records[id]);
    }

    /** A definitive rejection closes an operation in doubt and withdraws any other. */
    method RejectCall(id: string, name: SlotName) returns (error: ErrorCode)
      requires Working(id) && operations[id].Reached(name)
      modifies this`operations, this`pendingOp, this`records
      ensures Valid()
      ensures var r := old(State()); var op := r.ops[id];
        && (op.doubt ==> error == OperationStateUnknown && State() == r.(ops := r.ops[id := op.(closed := true)]))
        && (!op.doubt ==> error == FeishuRejected && State() == Abandon(r, id))
    {
      hide Operation.Valid, Operation.Value, Operation.HasPlan, Operation.OutcomeUnknown, Operation.Reached;
      hide Operation.SetSlot, Operation.Slot;
      var op := operations[id];
      var slot := op.Slot(name);
      op.ReachedIsNext(id, name);
      if slot.ambiguous {
        op.MarkingClosed(id, name);
        operations := operations[id := op.SetSlot(name, slot.(closed := true))];
        records := records[id := records[id].(closed := true)];
        error := OperationStateUnknown;
      } else {
        AbortOperation(id);
        records := records - {id};
        error := FeishuRejected;
      }
    }

    /** The call failed: withdraw the operation, give it up, or remember that its fate is unknown. */
    method FailCall(id: string, name: SlotName, f: Failure) returns (error: ErrorCode)
      requires Working(id) && operations[id].Reached(name)
      modifies this`operations, this`pendingOp, this`records
      ensures Valid()
      ensures var r := old(State()); var op := r.ops[id];
        && (IsDefinitive(f) && op.doubt ==>
              error == OperationStateUnknown && State() == r.(ops := r.ops[id := op.(closed := true)]))
        && (IsDefinitive(f) && !op.doubt ==> error == FeishuRejected && State() == Abandon(r, id))
        && (!IsDefinitive(f) ==>
              error == FeishuUnavailable && State() == r.(ops := r.ops[id := op.(doubt := op.doubt || IsAmbiguous(f))]))
    {
      hide Operation.Valid, Operation.Value, Operation.HasPlan, Operation.OutcomeUnknown, Operation.Reached;
      hide Operation.SetSlot, Operation.Slot;
      var op := operations[id];
      var slot := op.Slot(name);
      op.ReachedIsNext(id, name);
      if IsCardApiRejection(f) && !IsRetryable(f) {
        error := RejectCall(id, name);
      } else {
        if IsAmbiguous(f) {
          op.MarkingDoubt(id, name);
          operations := operations[id := op.SetSlot(name, slot.(ambiguous := true))];
          records := records[id := records[id].(doubt := true)];
        }
        error := FeishuUnavailable;
      }
    }

    /**
      Issues the call the plan stands at. With no error the rest of the plan is still to run;
      with one, the whole attempt has ended the way Drive says.
    */
    method Issue(id: string, name: SlotName, outcome: Outcome, ghost net: Net) returns (error: Option<ErrorCode>)
      requires Working(id) && operations[id].Reached(name)
      requires outcome == net.At(operations[id].Slot(name).uuid.role)
      modifies this
      ensures Valid()
      ensures error.None? ==>
        && Working(id)
        && operations[id] == old(operations[id]).SetSlot(name, old(operations[id].Slot(name)).(done := true))
        && StillRunning(id, net)
      ensures error.Some? ==> Stopped(id, net, error.value)
    {
      hide Operation.Valid, Operation.Value, Operation.HasPlan, Operation.OutcomeUnknown, Operation.Reached;
      hide Operation.SetSlot, Operation.Slot, Acknowledge, Abandon, Complete;
      var slot := operations[id].Slot(name);
      operations[id].ReachedIsNext(id, name);
      ghost var r, was := State(), log;
      if outcome.NotIssued? {
        error := Some(FeishuUnavailable);
        assert log == log + [];
        return;
      }
      log := log + [Attempt(slot.Call(), outcome)];
      if outcome.Accepted? {
        CommitCall(id, name);
        error := None;
        assert was + ([Attempt(slot.Call(), outcome)] + Drive(State(), id, net).issued)
          == log + Drive(State(), id, net).issued;
      } else {
        var code := FailCall(id, name, outcome.failure);
        error := Some(code);
      }
    }

    /** The attempt under way, begun in the old state, is what is left to run in this one. */
    twostate predicate StillRunning(id: string, net: Net)
      requires id in old(State()).ops && old(State()).ops[id].Open? && id in State().ops && State().ops[id].Open?
      reads this
    {
      var before, now := Drive(old(State()), id, net), Drive(State(), id, net);
      && before.response == now.response && before.reply == now.reply
      && old(log) + before.issued == log + now.issued
    }

    /** The attempt, begun in the old state, has ended in this one with an error. */
    twostate predicate Stopped(id: string, net: Net, code: ErrorCode)
      requires id in old(State()).ops && old(State()).ops[id].Open?
      reads this
    {
      var out := Drive(old(State()), id, net);
      State() == out.response && out.reply == Error(code) && log == old(log) + out.issued
    }

    method ApplyAgentContent(id: string, net: Net) returns (error: Option<ErrorCode>)
      requires Working(id) && operations[id].content.Outstanding()
      modifies this
      ensures Valid()
      ensures error.None? ==>
        Working(id) && operations[id] == old(operations[id]).(content := old(operations[id]).content.(done := true))
        && StillRunning(id, net)
      ensures error.Some? ==> Stopped(id, net, error.value)
    {
      error := Issue(id, ContentSlot, net.content, net);
    }

    /** The panel body first, then its header, so the header never runs ahead of the body. */
    method ApplyAgentTimeline(id: string, net: Net) returns (error: Option<ErrorCode>)
      requires Working(id) && !operations[id].content.Outstanding() && !operations[id].request.Replace?
      modifies this
      ensures Valid()
      ensures error.None? ==>
        && Working(id) && StillRunning(id, net)
        && operations[id].request == old(operations[id].request)
        && operations[id].content == old(operations[id].content)
        && operations[id].settings == old(operations[id].settings)
        && !operations[id].timeline.Outstanding() && !operations[id].panel.Outstanding()
      ensures error.Some? ==> Stopped(id, net, error.value)
    {
      hide Operation.Value, Operation.OutcomeUnknown, Operation.InOrder, Drive;
      if operations[id].timeline.sequence != 0 && !operations[id].timeline.done {
        error := Issue(id, TimelineSlot, net.timeline, net);
        if error.Some? { return; }
      }
      if operations[id].panel.sequence != 0 && !operations[id].panel.done {
        error := Issue(id, PanelSlot, net.panel, net);
        if error.Some? { return; }
      }
      error := None;
    }

    /** The bookkeeping every completed operation shares: one more revision, a compact record. */
    method CompleteRecord(id: string, phase: Phase)
      requires Working(id)
      modifies this`operations, this`records, this`revision, this`pendingOp
      ensures Valid() && revision == old(revision) + 1 && pendingOp == ""
      ensures records == old(records)[id := Done(old(operations[id]).request, revision, phase)]
    {
      hide Operation.Valid, Operation.Value, Operation.OutcomeUnknown;
      revision := revision + 1;
      var op := operations[id].(complete := true, revision := revision, phase := phase);
      op.CompactedRecord(id);
      operations := operations[id := op.Compact()];
      records := records[id := Done(op.request, revision, phase)];
      pendingOp := "";
    }

    ghost predicate AllDone(id: string)
      reads this
    {
      && Working(id)
      && !operations[id].content.Outstanding() && !operations[id].timeline.Outstanding()
      && !operations[id].panel.Outstanding() && !operations[id].settings.Outstanding()
    }

    /** Every call of the plan is acknowledged; the attempt ends here. */
    twostate predicate Completed(id: string, reply: Reply)
      requires id in old(State()).ops && old(State()).ops[id].Open?
      reads this
    {
      && old(State()).ops[id].acked == |old(State()).ops[id].plan|
      && State() == Complete(old(State()), id) && log == old(log)
      && reply == Receipt(old(revision) + 1, Complete(old(State()), id).phase, false)
    }

    method CompleteUpdate(id: string) returns (reply: Reply)
      requires AllDone(id) && operations[id].request.Update?
      modifies this
      ensures Valid() && Completed(id, reply)
    {
      hide Operation.Valid, Operation.Value, Operation.OutcomeUnknown, Operation.HasPlan;
      operations[id].NothingOutstanding(id);
      CompleteRecord(id, phase);
      reply := Receipt(revision, phase, false);
    }

    method CompleteFinish(id: string) returns (reply: Reply)
      requires AllDone(id) && operations[id].request.Finish?
      modifies this
      ensures Valid() && Completed(id, reply)
    {
      hide Operation.Valid, Operation.Value, Operation.OutcomeUnknown, Operation.HasPlan;
      operations[id].NothingOutstanding(id);
      phase := operations[id].request.phase;
      CompleteRecord(id, phase);
      markdown := "";
      reply := Receipt(revision, phase, false);
    }

    /** The phase stays terminal; the shadow timeline follows only now. */
    method CompleteReplacement(id: string) returns (reply: Reply)
      requires AllDone(id) && operations[id].request.Replace?
      modifies this
      ensures Valid() && Completed(id, reply)
    {
      hide Operation.Valid, Operation.Value, Operation.OutcomeUnknown, Operation.HasPlan;
      var parts := operations[id].request.timeline;
      operations[id].NothingOutstanding(id);
      CompleteRecord(id, phase);
      if timeline.present {
        if parts.markdown != "" { timeline := timeline.(markdown := parts.markdown); }
        if parts.title != "" { timeline := timeline.(title := parts.title); }
      }
      reply := Receipt(revision, phase, false);
    }

    /** What a request does to the response, and the calls it issues, are those of the protocol. */
    twostate predicate Conforms(id: string, req: Request, net: Net, reply: Reply)
      reads this
    {
      var out := Apply(old(State()), id, req, net);
      State() == out.response && log == old(log) + out.issued && reply == out.reply
    }

    /** Fills the slots of the record just claimed, in one go. */
    method FreezePlan(id: string, content: CallSlot, body: CallSlot, panel: CallSlot, settings: CallSlot)
      requires nextSequence >= 0 && "" !in operations && id in operations && !operations[id].complete
      requires operations.Keys == records.Keys + {id} && id !in records
      requires forall x :: x in records ==> Means(x, operations[x], records[x])
      requires SlotsFor(id, operations[id].request, content, body, panel, settings)
      modifies this`operations, this`records
      ensures Working(id) && operations[id].request == old(operations[id].request)
      ensures records == old(records)[id := Open(operations[id].request,
        content.Calls() + body.Calls() + panel.Calls() + settings.Calls(), 0, false, false)]
    {
      hide SlotsFor, Operation.Valid, Operation.Value, Operation.HasPlan, Operation.OutcomeUnknown;
      var op := operations[id].(content := content, timeline := body, panel := panel, settings := settings);
      op.FreshRecord(id);
      operations := operations[id := op];
      records := records[id := op.Value()];
    }

    /** The whole attempt, begun in the old state, has run as the protocol says. */
    twostate predicate Ran(id: string, net: Net, reply: Reply)
      requires id in old(State()).ops && old(State()).ops[id].Open?
      reads this
    {
      var out := Drive(old(State()), id, net);
      State() == out.response && reply == out.reply && log == old(log) + out.issued
    }

    /** The id is refused, names a completed operation, or is claimed with its plan frozen. */
    twostate predicate Claimed(id: string, req: Request, new error: Option<ErrorCode>)
      reads this
    {
      && error == Refusal(old(State()), id, req) && log == old(log)
      && (error.Some? ==> State() == old(State()))
      && (error.None? ==>
            id in operations && operations[id].request == req
            && State() == Claim(old(State()), id, req) && (operations[id].complete || Working(id)))
    }

    /** The slots of an update: the content always, then whatever part of the timeline moved. */
    method PlanUpdateCalls(id: string, req: Request) returns (content: CallSlot, body: CallSlot, panel: CallSlot)
      requires nextSequence >= 0 && req.Update?
      ensures content.Calls() + body.Calls() + panel.Calls() + EMPTY_SLOT.Calls() == Plan(State(), id, req)
      ensures SlotsFor(id, req, content, body, panel, EMPTY_SLOT)
    {
      content := Planned(Call(Answer(req.markdown), Uuid(ContentRole, id), nextSequence + 1));
      var last;
      body, panel, last := PlanTimelineCalls(id, content.sequence, req.timeline);
      assert content.Calls() + body.Calls() + panel.Calls() == content.Calls() + (body.Calls() + panel.Calls());
    }

    method ClaimUpdate(id: string, req: Request) returns (error: Option<ErrorCode>)
      requires Valid() && id != "" && req.Update?
      modifies this`operations, this`pendingOp, this`records
      ensures Valid() && Claimed(id, req, error)
    {
      hide Operation.Value, SlotsFor, Operation.Valid, Plan;
      error := BeginOperation(id, req);
      if error.Some? || operations[id].complete { return; }
      if operations[id].content.sequence == 0 {
        var content, body, panel := PlanUpdateCalls(id, req);
        PlanReadsTheShadow(State(), old(State()), id, req);
        FreezePlan(id, content, body, panel, EMPTY_SLOT);
      }
    }

    method RunUpdate(id: string, net: Net) returns (reply: Reply)
      requires Working(id) && operations[id].request.Update?
      modifies this
      ensures Valid() && Ran(id, net, reply)
    {
      hide Operation.Valid, Operation.Value, Operation.OutcomeUnknown;
      var error := None;
      if !operations[id].content.done {
        error := ApplyAgentContent(id, net);
        if error.Some? { return Error(error.value); }
      }
      error := ApplyAgentTimeline(id, net);
      if error.Some? { return Error(error.value); }
      reply := CompleteUpdate(id);
    }

    method ApplyAgentUpdate(id: string, req: Request, net: Net) returns (reply: Reply)
      requires Valid() && id != "" && req.Update?
      modifies this
      ensures Valid() && Conforms(id, req, net, reply)
    {
      if !WithinCardBudget(req.markdown, req.timeline) { return Error(FieldTooLarge); }
      var error := ClaimUpdate(id, req);
      if error.Some? { return Error(error.value); }
      if operations[id].complete { return Receipt(operations[id].revision, operations[id].phase, true); }
      reply := RunUpdate(id, net);
    }

    /** The slots of a finish: content only if it differs, the timeline, streaming mode off last. */
    method PlanFinishCalls(id: string, req: Request)
      returns (content: CallSlot, body: CallSlot, panel: CallSlot, settings: CallSlot)
      requires nextSequence >= 0 && req.Finish?
      ensures content.Calls() + body.Calls() + panel.Calls() + settings.Calls() == Plan(State(), id, req)
      ensures SlotsFor(id, req, content, body, panel, settings)
    {
      hide Plan, TimelineCalls;
      content := EMPTY_SLOT;
      if req.markdown != markdown {
        content := Planned(Call(Answer(req.markdown), Uuid(ContentRole, id), nextSequence + 1));
      }
      var last;
      body, panel, last := PlanTimelineCalls(id, content.sequence, req.timeline);
      settings := Planned(Call(Closing(req.summary), Uuid(FinishRole, id), last + 1));
      FinishPlanIs(State(), id, req, content.Calls(), body.Calls(), panel.Calls());
    }

    method ClaimFinish(id: string, req: Request) returns (error: Option<ErrorCode>)
      requires Valid() && id != "" && req.Finish?
      modifies this`operations, this`pendingOp, this`records
      ensures Valid() && Claimed(id, req, error)
    {
      hide Operation.Value, SlotsFor, Operation.Valid, Plan;
      error := BeginOperation(id, req);
      if error.Some? || operations[id].complete { return; }
      if operations[id].settings.sequence == 0 {
        var content, body, panel, settings := PlanFinishCalls(id, req);
        PlanReadsTheShadow(State(), old(State()), id, req);
        FreezePlan(id, content, body, panel, settings);
      }
    }

    method RunFinish(id: string, net: Net) returns (reply: Reply)
      requires Working(id) && operations[id].request.Finish?
      modifies this
      ensures Valid() && Ran(id, net, reply)
    {
      hide Operation.Valid, Operation.Value, Operation.OutcomeUnknown;
      var error := None;
      if operations[id].content.sequence != 0 && !operations[id].content.done {
        error := ApplyAgentContent(id, net);
        if error.Some? { return Error(error.value); }
      }
      error := ApplyAgentTimeline(id, net);
      if error.Some? { return Error(error.value); }
      reply := CloseThenComplete(id, net);
    }

    /** The end of a finish: the closing call if it is not done, then the record. */
    method CloseThenComplete(id: string, net: Net) returns (reply: Reply)
      requires Working(id) && operations[id].request.Finish? && !operations[id].content.Outstanding()
      requires !operations[id].timeline.Outstanding() && !operations[id].panel.Outstanding()
      modifies this
      ensures Valid() && Ran(id, net, reply)
    {
      hide Operation.Valid, Operation.Value, Operation.OutcomeUnknown;
      if operations[id].settings.Outstanding() {
        var error := ApplyAgentSettings(id, net);
        if error.Some? { return Error(error.value); }
      }
      reply := CompleteFinish(id);
    }

    /** The last call of a finish or of a replacement. */
    method ApplyAgentSettings(id: string, net: Net) returns (error: Option<ErrorCode>)
      requires Working(id) && operations[id].settings.Outstanding()
      requires !operations[id].content.Outstanding() && !operations[id].timeline.Outstanding()
      requires !operations[id].panel.Outstanding()
      modifies this
      ensures Valid()
      ensures error.None? ==>
        Working(id) && operations[id] == old(operations[id]).(settings := old(operations[id]).settings.(done := true))
        && StillRunning(id, net)
      ensures error.Some? ==> Stopped(id, net, error.value)
    {
      error := Issue(id, SettingsSlot, net.settings, net);
    }

    /** The batch patch of a replacement travels in the panel slot. */
    method ApplyAgentPatch(id: string, net: Net) returns (error: Option<ErrorCode>)
      requires Working(id) && operations[id].panel.Outstanding()
      requires !operations[id].content.Outstanding() && !operations[id].timeline.Outstanding()
      modifies this
      ensures Valid()
      ensures error.None? ==>
        Working(id) && operations[id] == old(operations[id]).(panel := old(operations[id]).panel.(done := true))
        && StillRunning(id, net)
      ensures error.Some? ==> Stopped(id, net, error.value)
    {
      error := Issue(id, PanelSlot, net.panel, net);
    }

    method ApplyAgentFinish(id: string, req: Request, net: Net) returns (reply: Reply)
      requires Valid() && id != "" && req.Finish?
      modifies this
      ensures Valid() && Conforms(id, req, net, reply)
    {
      if !WithinCardBudget(req.markdown, req.timeline) { return Error(FieldTooLarge); }
      var error := ClaimFinish(id, req);
      if error.Some? { return Error(error.value); }
      if operations[id].complete { return Receipt(operations[id].revision, operations[id].phase, true); }
      reply := RunFinish(id, net);
    }

    /** The slots of a replacement: one batch patch, then the settings. */
    method PlanReplacementCalls(id: string, req: Request) returns (patch: CallSlot, settings: CallSlot)
      requires nextSequence >= 0 && req.Replace?
      ensures EMPTY_SLOT.Calls() + EMPTY_SLOT.Calls() + patch.Calls() + settings.Calls() == Plan(State(), id, req)
      ensures SlotsFor(id, req, EMPTY_SLOT, EMPTY_SLOT, patch, settings)
    {
      var body := if timeline.present && req.timeline.markdown != "" then Some(req.timeline.markdown) else None;
      var header := if timeline.present && req.timeline.title != "" then Some(req.timeline.title) else None;
      patch := Planned(Call(Replacement(req.markdown, body, header), Uuid(ReplaceRole, id), nextSequence + 1));
      settings := Planned(Call(Closing(req.summary), Uuid(ReplaceSettingsRole, id), patch.sequence + 1));
    }

    method ClaimReplacement(id: string, req: Request) returns (error: Option<ErrorCode>)
      requires Valid() && id != "" && req.Replace?
      modifies this`operations, this`pendingOp, this`records
      ensures Valid() && Claimed(id, req, error)
    {
      hide Operation.Value, SlotsFor, Operation.Valid, Plan;
      error := BeginOperation(id, req);
      if error.Some? || operations[id].complete { return; }
      if operations[id].panel.sequence == 0 {
        var patch, settings := PlanReplacementCalls(id, req);
        PlanReadsTheShadow(State(), old(State()), id, req);
        FreezePlan(id, EMPTY_SLOT, EMPTY_SLOT, patch, settings);
      }
    }

    method RunReplacement(id: string, net: Net) returns (reply: Reply)
      requires Working(id) && operations[id].request.Replace?
      modifies this
      ensures Valid() && Ran(id, net, reply)
    {
      hide Operation.Valid, Operation.Value, Operation.OutcomeUnknown;
      var error := None;
      if !operations[id].panel.done {
        error := ApplyAgentPatch(id, net);
        if error.Some? { return Error(error.value); }
      }
      if !operations[id].settings.done {
        error := ApplyAgentSettings(id, net);
        if error.Some? { return Error(error.value); }
      }
      reply := CompleteReplacement(id);
    }

    method ApplyAgentReplacement(id: string, req: Request, net: Net) returns (reply: Reply)
      requires Valid() && id != "" && req.Replace?
      modifies this
      ensures Valid() && Conforms(id, req, net, reply)
    {
      if !WithinCardBudget(req.markdown, req.timeline) { return Error(FieldTooLarge); }
      var error := ClaimReplacement(id, req);
      if error.Some? { return Error(error.value); }
      if operations[id].complete { return Receipt(operations[id].revision, operations[id].phase, true); }
      reply := RunReplacement(id, net);
    }

    /** One request, from its validation on: exactly one step of the protocol. */
    method Handle(id: string, req: Request, net: Net) returns (reply: Reply)
      requires Valid()
      modifies this
      ensures Valid()
      ensures var out := Submit(old(State()), id, req, net);
        State() == out.response && log == old(log) + out.issued && reply == out.reply
    {
      var bad := Screen(id, req);
      if bad.Some? { return Error(bad.value); }
      match req
      case Update(_, _, _, _) => reply := ApplyAgentUpdate(id, req, net);
      case Finish(_, _, _, _, _, _) => reply := ApplyAgentFinish(id, req, net);
      case Replace(_, _, _, _) => reply := ApplyAgentReplacement(id, req, net);
    }
  }
}
