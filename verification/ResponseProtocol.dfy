/** One reported unit of work inside a run, as a provider submits it. */
module TimelineSteps {
  datatype StepState = Unspecified | Started | Finished

  datatype Step = Step(stepId: string, title: string, state: StepState)
}

/**
  The meaning of UpdateAgentResponse, FinishAgentResponse and ReplaceAgentResponse on one
  response, as a function of the response, the request and what the network did to each call.
  An operation is a frozen plan of calls of which a prefix has been acknowledged.
*/
module ResponseProtocol {
  import opened Options
  import opened CardFailures
  import opened CardChannel
  import TimelineSteps

  const MAX_CARD_BYTES := 30 * 1024
  const MAX_TITLE_BYTES := 200
  const MAX_OPERATION_ID_BYTES := 64

  datatype Phase = Unspecified | Streaming | Completed | Failed | Cancelled

  predicate Terminal(p: Phase) { p.Completed? || p.Failed? || p.Cancelled? }

  /** The timeline halves of a request; an empty one leaves that part of the panel unchanged. */
  datatype Parts = Parts(markdown: string, title: string)

  datatype TimelineState = TimelineState(present: bool, markdown: string, title: string)

  /** The request is its own fingerprint: hashing is taken to be injective. */
  datatype Request =
    | Update(expected: nat, markdown: string, timeline: Parts, steps: seq<TimelineSteps.Step>)
    | Finish(expected: nat, phase: Phase, markdown: string, summary: string, timeline: Parts,
             steps: seq<TimelineSteps.Step>)
    | Replace(expected: nat, markdown: string, summary: string, timeline: Parts)

  datatype ErrorCode =
    | MissingOperationId | InvalidRevision | InvalidOutcome | MissingMarkdown | FieldTooLarge
    | OperationConflict | OperationStateUnknown | ResponseClosed | ResponseNotClosed
    | OperationInFlight | RevisionConflict | FeishuUnavailable | FeishuRejected

  datatype Reply = Receipt(revision: nat, phase: Phase, duplicate: bool) | Error(code: ErrorCode)

  /** What the network does with each of the at most four calls of one attempt. */
  datatype Net = Net(content: Outcome, timeline: Outcome, panel: Outcome, settings: Outcome) {
    function At(role: Role): Outcome {
      match role
      case ContentRole => content
      case TimelineRole => timeline
      case PanelRole => panel
      case ReplaceRole => panel
      case FinishRole => settings
      case ReplaceSettingsRole => settings
    }
  }

  const ALL_ACCEPTED: Net := Net(Accepted, Accepted, Accepted, Accepted)

  datatype Op =
    | Open(request: Request, plan: seq<Call>, acked: nat, doubt: bool, closed: bool)
    | Done(request: Request, revision: nat, phase: Phase)

  datatype Response = Response(
    phase: Phase,
    revision: nat,
    markdown: string,
    timeline: TimelineState,
    nextSequence: int,
    pending: Option<string>,
    ops: map<string, Op>)

  function Opened(markdown: string, timeline: TimelineState): Response {
    Response(Streaming, 1, markdown, timeline, 0, None, map[])
  }

  // ---------------------------------------------------------------- admission

  predicate PartsFit(parts: Parts) {
    |parts.markdown| <= MAX_CARD_BYTES && |parts.title| <= MAX_TITLE_BYTES
  }

  /** The checks made before the response is even looked up. */
  function Screen(id: string, req: Request): Option<ErrorCode> {
    if id == "" then Some(MissingOperationId)
    else if |id| > MAX_OPERATION_ID_BYTES then Some(FieldTooLarge)
    else if req.expected == 0 then Some(InvalidRevision)
    else if req.Finish? && !Terminal(req.phase) then Some(InvalidOutcome)
    else if req.markdown == "" then Some(MissingMarkdown)
    else if |req.markdown| > MAX_CARD_BYTES || !PartsFit(req.timeline) then Some(FieldTooLarge)
    else if !req.Update? && |req.summary| > MAX_TITLE_BYTES then Some(FieldTooLarge)
    else None
  }

  /** The answer and the timeline share one ceiling; a part left empty keeps its current size. */
  predicate WithinBudget(r: Response, req: Request) {
    !r.timeline.present
    || |req.markdown| + (if req.timeline.markdown != "" then |req.timeline.markdown| else |r.timeline.markdown|)
       <= MAX_CARD_BYTES
  }

  predicate GaveUp(r: Response) {
    r.pending.Some? && r.pending.value in r.ops && r.ops[r.pending.value].Open? && r.ops[r.pending.value].closed
  }

  /** Why the operation id cannot be used for this request now, if it cannot. */
  function Refusal(r: Response, id: string, req: Request): Option<ErrorCode> {
    if id in r.ops then
      if r.ops[id].request != req then Some(OperationConflict)
      else if r.ops[id].Open? && r.ops[id].closed then Some(OperationStateUnknown)
      else None
    else if !req.Replace? && r.phase != Streaming then Some(ResponseClosed)
    else if req.Replace? && !Terminal(r.phase) then Some(ResponseNotClosed)
    else if r.pending.Some? then Some(if GaveUp(r) then OperationStateUnknown else OperationInFlight)
    else if req.expected != r.revision then Some(RevisionConflict)
    else None
  }

  // ---------------------------------------------------------------- planning

  function TimelineCalls(r: Response, id: string, after: int, parts: Parts): seq<Call> {
    if !r.timeline.present then []
    else
      var body := if parts.markdown != "" && parts.markdown != r.timeline.markdown
                  then [Call(Body(parts.markdown), Uuid(TimelineRole, id), after + 1)] else [];
      var header := if parts.title != "" && parts.title != r.timeline.title
                    then [Call(Header(parts.title), Uuid(PanelRole, id), after + |body| + 1)] else [];
      body + header
  }

  function ReplacementOf(r: Response, req: Request): Payload {
    var part := (text: string) => if r.timeline.present && text != "" then Some(text) else None;
    Replacement(req.markdown, part(req.timeline.markdown), part(req.timeline.title))
  }

  /** The calls of an operation, numbered from the next free sequence, fixed on its first attempt. */
  function Plan(r: Response, id: string, req: Request): seq<Call> {
    var n := r.nextSequence;
    match req
    case Update(_, markdown, timeline, _) =>
      [Call(Answer(markdown), Uuid(ContentRole, id), n + 1)] + TimelineCalls(r, id, n + 1, timeline)
    case Finish(_, _, markdown, summary, timeline, _) =>
      var content := if markdown != r.markdown then [Call(Answer(markdown), Uuid(ContentRole, id), n + 1)] else [];
      var both := content + TimelineCalls(r, id, n + |content|, timeline);
      both + [Call(Closing(summary), Uuid(FinishRole, id), n + |both| + 1)]
    case Replace(_, _, summary, _) =>
      [Call(ReplacementOf(r, req), Uuid(ReplaceRole, id), n + 1),
       Call(Closing(summary), Uuid(ReplaceSettingsRole, id), n + 2)]
  }

  // ---------------------------------------------------------------- progress

  /** The daemon's shadow of the card after an acknowledged call. */
  function Acknowledge(r: Response, id: string, call: Call): Response
    requires id in r.ops && r.ops[id].Open?
  {
    var op := r.ops[id];
    var moved := r.(nextSequence := call.sequence, ops := r.ops[id := op.(acked := op.acked + 1, doubt := false)]);
    match call.payload
    case Answer(text) => moved.(markdown := text)
    case Body(text) => moved.(timeline := r.timeline.(markdown := text))
    case Header(title) => moved.(timeline := r.timeline.(title := title))
    case Closing(_) => moved
    case Replacement(_, _, _) => moved
  }

  function Abandon(r: Response, id: string): Response {
    r.(ops := r.ops - {id}, pending := if r.pending == Some(id) then None else r.pending)
  }

  /** Every planned call is acknowledged: one revision, and the phase the operation asks for. */
  function Complete(r: Response, id: string): Response
    requires id in r.ops && r.ops[id].Open?
  {
    var req := r.ops[id].request;
    var phase := if req.Finish? then req.phase else r.phase;
    var timeline :=
      if req.Replace? && r.timeline.present
      then r.timeline.(markdown := if req.timeline.markdown != "" then req.timeline.markdown else r.timeline.markdown,
                       title := if req.timeline.title != "" then req.timeline.title else r.timeline.title)
      else r.timeline;
    Response(phase, r.revision + 1, if req.Finish? then "" else r.markdown, timeline, r.nextSequence, None,
             r.ops[id := Done(req, r.revision + 1, phase)])
  }

  datatype Result = Result(response: Response, issued: seq<Attempt>, reply: Reply)

  /** Issues the calls of an open operation from the first one not acknowledged. */
  function Drive(r: Response, id: string, net: Net): Result
    requires id in r.ops && r.ops[id].Open?
    decreases if r.ops[id].acked < |r.ops[id].plan| then |r.ops[id].plan| - r.ops[id].acked else 0
  {
    var op := r.ops[id];
    if op.acked >= |op.plan| then Result(Complete(r, id), [], Receipt(r.revision + 1, Complete(r, id).phase, false))
    else
      var call := op.plan[op.acked];
      match net.At(call.uuid.role)
      case NotIssued => Result(r, [], Error(FeishuUnavailable))
      case Accepted =>
        var rest := Drive(Acknowledge(r, id, call), id, net);
        Result(rest.response, [Attempt(call, Accepted)] + rest.issued, rest.reply)
      case Failed(f) =>
        var issued := [Attempt(call, Outcome.Failed(f))];
        if IsDefinitive(f) then
          if op.doubt then Result(r.(ops := r.ops[id := op.(closed := true)]), issued, Error(OperationStateUnknown))
          else Result(Abandon(r, id), issued, Error(FeishuRejected))
        else
          Result(r.(ops := r.ops[id := op.(doubt := op.doubt || IsAmbiguous(f))]), issued, Error(FeishuUnavailable))
  }

  /** Claims the id on first contact and freezes its plan. */
  function Claim(r: Response, id: string, req: Request): Response {
    if id in r.ops then r
    else r.(pending := Some(id), ops := r.ops[id := Open(req, Plan(r, id, req), 0, false, false)])
  }

  /** The part of a request that runs under the response's mutex. */
  function Apply(r: Response, id: string, req: Request, net: Net): Result {
    if !WithinBudget(r, req) then Result(r, [], Error(FieldTooLarge))
    else
      var refusal := Refusal(r, id, req);
      if refusal.Some? then Result(r, [], Error(refusal.value))
      else if id in r.ops && r.ops[id].Done? then Result(r, [], Receipt(r.ops[id].revision, r.ops[id].phase, true))
      else Drive(Claim(r, id, req), id, net)
  }

  function Submit(r: Response, id: string, req: Request, net: Net): Result {
    var bad := Screen(id, req);
    if bad.Some? then Result(r, [], Error(bad.value)) else Apply(r, id, req, net)
  }

  // ---------------------------------------------------------------- runs

  datatype Command = Command(id: string, request: Request, net: Net)

  function Perform(r: Response, c: Command): Result { Submit(r, c.id, c.request, c.net) }

  datatype Session = Session(response: Response, log: seq<Attempt>)

  /** Any sequence of requests, each with whatever the network did to its calls. */
  function Run(s: Session, cmds: seq<Command>): Session
    decreases |cmds|
  {
    if cmds == [] then s
    else
      var out := Perform(s.response, cmds[0]);
      Run(Session(out.response, s.log + out.issued), cmds[1..])
  }
}
