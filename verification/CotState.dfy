/** The bookkeeping of one response's progress message, changed in place by every report. */
module CotStates {
  import opened TimelineSteps
  import opened CotProgress

  class CotState {
    var attempted: bool
    /** `stepFinished` exists only once the message does. */
    var active: bool
    var stepFinished: map<string, bool>
    ghost var built: seq<Event>

    constructor ()
      ensures State() == UNTOUCHED
    {
      attempted, active, stepFinished, built := false, false, map[], [];
    }

    ghost function State(): Cot
      reads this
    {
      Cot(attempted, active, stepFinished, built)
    }

    /** The events for whatever moved since the last snapshot; the move is committed whether or not they can be sent. */
    method StepEvents(steps: seq<Step>) returns (events: seq<Event>)
      modifies this`stepFinished
      ensures stepFinished == After(old(stepFinished), steps) && events == EventsOf(old(stepFinished), steps)
    {
      events := [];
      for i := 0 to |steps|
        invariant stepFinished == After(old(stepFinished), steps[..i])
          && events == EventsOf(old(stepFinished), steps[..i])
      {
        ghost var p := After(old(stepFinished), steps[..i]);
        assert steps[..i + 1][..i] == steps[..i] && steps[..i + 1][i] == steps[i];
        assert After(old(stepFinished), steps[..i + 1]) == Note(p, steps[i]);
        assert EventsOf(old(stepFinished), steps[..i + 1]) == events + Announce(p, steps[i]);
        hide After, EventsOf;
        ghost var events0 := events;
        var step := steps[i];
        if step.stepId == "" || step.title == "" || step.state.Unspecified? { continue; }
        var fits := |step.stepId| <= MAX_LABEL && |step.title| <= MAX_LABEL;
        var finished := step.stepId in stepFinished && stepFinished[step.stepId];
        if step.stepId !in stepFinished {
          stepFinished := stepFinished[step.stepId := false];
          if fits { events := events + [StepStarted(step.stepId, step.title)]; }
        }
        if step.state.Finished? && !finished {
          stepFinished := stepFinished[step.stepId := true];
          if fits { events := events + [StepFinished(step.stepId, step.title)]; }
        }
        assert events == events0 + Announce(p, step);
      }
      assert steps[..|steps|] == steps;
    }

    /** One attempt to open the message, whatever becomes of it. */
    method CreateAgentCot(contact: Contact, steps: seq<Step>)
      modifies this
      ensures State() == Create(old(State()), contact, steps)
    {
      attempted := true;
      if !contact.bound || !contact.accepted { return; }
      active, stepFinished := true, map[];
      var events := StepEvents(steps);
      built := built + [RunStarted] + events;
    }

    /** Reflects a cumulative snapshot: opens the message at the first steps, or adds what moved. */
    method AdvanceAgentCot(contact: Contact, steps: seq<Step>)
      modifies this
      ensures State() == Advance(old(State()), contact, steps)
    {
      if !contact.available || |steps| == 0 { return; }
      if active {
        var events := StepEvents(steps);
        built := built + events;
        return;
      }
      if attempted { return; }
      CreateAgentCot(contact, steps);
    }

    method FinishAgentCot(available: bool, failed: bool)
      modifies this`built
      ensures State() == Finish(old(State()), available, failed)
    {
      if !available || !active { return; }
      built := built + [RunFinished(failed)];
    }
  }
}
