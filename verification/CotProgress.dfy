/**
  The native progress message beside a card: cumulative step snapshots in, a stream of run and
  step events out. Snapshots may repeat, overlap, reorder or skip states.
*/
module CotProgress {
  import opened TimelineSteps

  const MAX_LABEL := 200

  datatype Event =
    | RunStarted
    | StepStarted(id: string, name: string)
    | StepFinished(id: string, name: string)
    | RunFinished(failed: bool)

  /** Per step seen, whether it has finished. */
  type Progress = map<string, bool>

  predicate Ignored(step: Step) { step.stepId == "" || step.title == "" || step.state.Unspecified? }

  /** Whether an event can be built for the step at all. */
  predicate Fits(step: Step) { |step.stepId| <= MAX_LABEL && |step.title| <= MAX_LABEL }

  function Note(p: Progress, step: Step): Progress {
    if Ignored(step) then p
    else
      var seen := if step.stepId in p then p else p[step.stepId := false];
      if step.state.Finished? then seen[step.stepId := true] else seen
  }

  /** A step never seen is started first, even one already reported finished. */
  function Announce(p: Progress, step: Step): seq<Event> {
    if Ignored(step) || !Fits(step) then []
    else
      (if step.stepId in p then [] else [StepStarted(step.stepId, step.title)])
      + (if step.state.Finished? && !(step.stepId in p && p[step.stepId])
         then [StepFinished(step.stepId, step.title)] else [])
  }

  function After(p: Progress, steps: seq<Step>): Progress {
    if steps == [] then p else Note(After(p, steps[..|steps| - 1]), steps[|steps| - 1])
  }

  function EventsOf(p: Progress, steps: seq<Step>): seq<Event> {
    if steps == [] then []
    else
      var front, last := steps[..|steps| - 1], steps[|steps| - 1];
      EventsOf(p, front) + Announce(After(p, front), last)
  }

  // ---------------------------------------------------------------- the progress is a join

  /** The step is reported under this id: neither blank nor untitled nor without a state. */
  predicate Reports(step: Step, id: string) {
    step.stepId == id && id != "" && step.title != "" && (step.state.Started? || step.state.Finished?)
  }

  ghost predicate Seen(steps: seq<Step>, id: string) { exists i :: 0 <= i < |steps| && Reports(steps[i], id) }

  ghost predicate SeenFinished(steps: seq<Step>, id: string) {
    exists i :: 0 <= i < |steps| && Reports(steps[i], id) && steps[i].state.Finished?
  }

  /** A step is known once reported and finished once reported finished, whatever else was reported when. */
  lemma {:induction false} ProgressIsTheJoin(p: Progress, steps: seq<Step>)
    ensures forall id :: id in After(p, steps) <==> id in p || Seen(steps, id)
    ensures forall id :: id in After(p, steps) ==>
      (After(p, steps)[id] <==> (id in p && p[id]) || SeenFinished(steps, id))
    decreases |steps|
  {
    if steps != [] {
      var front, last := steps[..|steps| - 1], steps[|steps| - 1];
      ProgressIsTheJoin(p, front);
      forall id ensures Seen(steps, id) <==> Seen(front, id) || Reports(last, id) {
        if Seen(front, id) {
          var i :| 0 <= i < |front| && Reports(front[i], id);
          assert steps[i] == front[i];
        }
        if Reports(last, id) {
          assert Reports(steps[|steps| - 1], id);
        }
      }
      forall id
        ensures SeenFinished(steps, id) <==> SeenFinished(front, id) || (Reports(last, id) && last.state.Finished?)
      {
        if SeenFinished(front, id) {
          var i :| 0 <= i < |front| && Reports(front[i], id) && front[i].state.Finished?;
          assert steps[i] == front[i];
        }
        if Reports(last, id) && last.state.Finished? {
          assert Reports(steps[|steps| - 1], id);
        }
      }
    }
  }

  /** Snapshots may arrive in either order. */
  lemma OrderOfSnapshotsDoesNotMatter(p: Progress, a: seq<Step>, b: seq<Step>)
    ensures After(After(p, a), b) == After(After(p, b), a)
  {
    ProgressIsTheJoin(p, a);
    ProgressIsTheJoin(p, b);
    ProgressIsTheJoin(After(p, a), b);
    ProgressIsTheJoin(After(p, b), a);
  }

  ghost predicate Covers(p: Progress, steps: seq<Step>) {
    forall i :: 0 <= i < |steps| && !Ignored(steps[i]) ==>
      steps[i].stepId in p && (steps[i].state.Finished? ==> p[steps[i].stepId])
  }

  lemma {:induction false} CoveredAddsNothing(p: Progress, steps: seq<Step>)
    requires Covers(p, steps)
    ensures After(p, steps) == p && EventsOf(p, steps) == []
    decreases |steps|
  {
    if steps != [] {
      var front, last := steps[..|steps| - 1], steps[|steps| - 1];
      assert forall i :: 0 <= i < |front| ==> front[i] == steps[i];
      CoveredAddsNothing(p, front);
      assert last == steps[|steps| - 1];
    }
  }

  /** A snapshot reported before adds no event, however much was reported in between. */
  lemma RepeatedSnapshotsAddNothing(p: Progress, steps: seq<Step>, between: seq<Step>)
    ensures EventsOf(After(After(p, steps), between), steps) == []
    ensures After(After(After(p, steps), between), steps) == After(After(p, steps), between)
  {
    ProgressIsTheJoin(p, steps);
    ProgressIsTheJoin(After(p, steps), between);
    var q := After(After(p, steps), between);
    forall i | 0 <= i < |steps| && !Ignored(steps[i])
      ensures steps[i].stepId in q && (steps[i].state.Finished? ==> q[steps[i].stepId])
    {
      assert Reports(steps[i], steps[i].stepId);
      assert Seen(steps, steps[i].stepId);
      assert steps[i].state.Finished? ==> SeenFinished(steps, steps[i].stepId);
    }
    CoveredAddsNothing(q, steps);
  }

  // ---------------------------------------------------------------- what the stream says of each step

  /** The events of one step: false for its start, true for its finish. */
  function Marks(events: seq<Event>, id: string): seq<bool> {
    if events == [] then []
    else
      var front, last := Marks(events[..|events| - 1], id), events[|events| - 1];
      if last == StepStarted(id, (if last.StepStarted? then last.name else "")) then front + [false]
      else if last == StepFinished(id, (if last.StepFinished? then last.name else "")) then front + [true]
      else front
  }

  lemma {:induction false} MarksOfBoth(a: seq<Event>, b: seq<Event>, id: string)
    ensures Marks(a + b, id) == Marks(a, id) + Marks(b, id)
    decreases |b|
  {
    if b == [] {
      assert a + b == a;
    } else {
      assert (a + b)[..|a + b| - 1] == a + b[..|b| - 1];
      MarksOfBoth(a, b[..|b| - 1], id);
    }
  }

  /** The events a step must have had by now. */
  function Due(p: Progress, id: string): seq<bool> {
    if id !in p then [] else if p[id] then [false, true] else [false]
  }

  /** No event twice, no start after a finish, nothing for a step not seen. */
  predicate WithinDue(marks: seq<bool>, p: Progress, id: string) {
    if id !in p then marks == []
    else if p[id] then marks in {[], [false], [true], [false, true]}
    else marks in {[], [false]}
  }

  lemma MarksOfOne(p: Progress, step: Step, id: string)
    ensures Ignored(step) || step.stepId != id || !Fits(step) ==> Marks(Announce(p, step), id) == []
    ensures !Ignored(step) && step.stepId == id && Fits(step) ==>
              Marks(Announce(p, step), id) ==
              (if id in p then [] else [false]) + (if step.state.Finished? && !(id in p && p[id]) then [true] else [])
  {
    var a: seq<Event> := if step.stepId in p then [] else [StepStarted(step.stepId, step.title)];
    var finishes := step.state.Finished? && !(step.stepId in p && p[step.stepId]);
    var b: seq<Event> := if finishes then [StepFinished(step.stepId, step.title)] else [];
    MarksOfBoth(a, b, id);
  }

  /** What one report adds to the marks of a step. */
  function Added(p: Progress, step: Step, id: string): seq<bool> {
    if Ignored(step) || step.stepId != id || !Fits(step) then []
    else if id !in p then (if step.state.Finished? then [false, true] else [false])
    else if step.state.Finished? && !p[id] then [true]
    else []
  }

  lemma MarksAdded(p: Progress, step: Step, before: seq<Event>, id: string)
    ensures Marks(before + Announce(p, step), id) == Marks(before, id) + Added(p, step, id)
  {
    MarksOfOne(p, step, id);
    MarksOfBoth(before, Announce(p, step), id);
    hide Marks, Announce, Fits;
  }

  lemma AddedIsDue(p: Progress, step: Step, marks: seq<bool>, id: string)
    ensures WithinDue(marks, p, id) ==> WithinDue(marks + Added(p, step, id), Note(p, step), id)
    ensures Fits(step) && marks == Due(p, id) ==> marks + Added(p, step, id) == Due(Note(p, step), id)
  {
    assert marks + [] == marks && [false] + [true] == [false, true];
    assert marks == [] ==>
      marks + [true] == [true] && marks + [false] == [false] && marks + [false, true] == [false, true];
  }

  lemma OneStepIsDue(p: Progress, step: Step, before: seq<Event>, id: string)
    ensures WithinDue(Marks(before, id), p, id) ==> WithinDue(Marks(before + Announce(p, step), id), Note(p, step), id)
    ensures Fits(step) && Marks(before, id) == Due(p, id) ==>
      Marks(before + Announce(p, step), id) == Due(Note(p, step), id)
  {
    hide *;
    MarksAdded(p, step, before, id);
    AddedIsDue(p, step, Marks(before, id), id);
  }

  lemma LastStep(p: Progress, steps: seq<Step>, before: seq<Event>)
    requires steps != []
    ensures var front, last := steps[..|steps| - 1], steps[|steps| - 1];
      && After(p, steps) == Note(After(p, front), last)
      && before + EventsOf(p, steps) == (before + EventsOf(p, front)) + Announce(After(p, front), last)
  {
  }

  /** Whatever is reported, each step is announced started at most once and then finished at most once. */
  lemma {:induction false} EventsStayWithinDue(p: Progress, steps: seq<Step>, before: seq<Event>, id: string)
    requires WithinDue(Marks(before, id), p, id)
    ensures WithinDue(Marks(before + EventsOf(p, steps), id), After(p, steps), id)
    decreases |steps|
  {
    if steps == [] {
      assert before + [] == before;
    } else {
      hide Marks, After, EventsOf, Announce, Note, WithinDue;
      var front := steps[..|steps| - 1];
      EventsStayWithinDue(p, front, before, id);
      LastStep(p, steps, before);
      OneStepIsDue(After(p, front), steps[|steps| - 1], before + EventsOf(p, front), id);
    }
  }

  /** If every event can be built, each step is announced exactly as far as it has come. */
  lemma {:induction false} EventsAreDue(p: Progress, steps: seq<Step>, before: seq<Event>, id: string)
    requires Marks(before, id) == Due(p, id) && forall i :: 0 <= i < |steps| ==> Fits(steps[i])
    ensures Marks(before + EventsOf(p, steps), id) == Due(After(p, steps), id)
    decreases |steps|
  {
    if steps == [] {
      assert before + [] == before;
    } else {
      hide Marks, After, EventsOf, Announce, Note, Due, Fits;
      var front := steps[..|steps| - 1];
      assert forall i :: 0 <= i < |front| ==> front[i] == steps[i];
      EventsAreDue(p, front, before, id);
      LastStep(p, steps, before);
      OneStepIsDue(After(p, front), steps[|steps| - 1], before + EventsOf(p, front), id);
    }
  }

  /** Index of the first report of a step, or the number of reports. */
  function FirstReport(steps: seq<Step>, id: string): (f: nat)
    ensures f <= |steps| && (f < |steps| ==> Reports(steps[f], id))
    ensures forall i :: 0 <= i < f ==> !Reports(steps[i], id)
  {
    if steps == [] then 0
    else
      var f := FirstReport(steps[..|steps| - 1], id);
      if f < |steps| - 1 then f else if Reports(steps[|steps| - 1], id) then f else f + 1
  }

  lemma KnownOnceReported(p: Progress, steps: seq<Step>, id: string)
    requires id !in p
    ensures id in After(p, steps) <==> FirstReport(steps, id) < |steps|
  {
    ProgressIsTheJoin(p, steps);
    var f := FirstReport(steps, id);
    if f < |steps| {
      assert Reports(steps[f], id);
    }
  }

  lemma StartInAnnouncement(p: Progress, step: Step, id: string)
    ensures false in Marks(Announce(p, step), id) <==>
      Reports(step, id) && |id| <= 200 && |step.title| <= 200 && id !in p
  {
    MarksOfOne(p, step, id);
  }

  /**
    A new step's start is announced exactly when an event fits the very first report of it:
    under a longer name there, the start is lost for good, and only a finish can follow.
  */
  lemma {:induction false} StartIsAnnouncedIff(p: Progress, steps: seq<Step>, id: string)
    requires id !in p
    ensures false in Marks(EventsOf(p, steps), id) <==>
      var f := FirstReport(steps, id); f < |steps| && |id| <= 200 && |steps[f].title| <= 200
    decreases |steps|
  {
    hide Marks, After, EventsOf, Announce, Fits, Reports;
    if steps == [] {
      NoMarks(p, id);
    } else {
      var front, last := steps[..|steps| - 1], steps[|steps| - 1];
      StartIsAnnouncedIff(p, front, id);
      KnownOnceReported(p, front, id);
      StartInAnnouncement(After(p, front), last, id);
      MarksOfBoth(EventsOf(p, front), Announce(After(p, front), last), id);
      LastEvents(p, steps);
    }
  }

  /** Some report of this id has this title, and is of a finish if asked for. */
  ghost predicate Titled(steps: seq<Step>, id: string, name: string, finished: bool) {
    exists i :: 0 <= i < |steps| && Reports(steps[i], id) && steps[i].title == name && |id| <= 200 && |name| <= 200
                && (finished ==> steps[i].state.Finished?)
  }

  lemma TitledEarlier(steps: seq<Step>, last: Step, id: string, name: string, finished: bool)
    requires Titled(steps, id, name, finished)
    ensures Titled(steps + [last], id, name, finished)
  {
    var i :| 0 <= i < |steps| && Reports(steps[i], id) && steps[i].title == name && |id| <= 200 && |name| <= 200
             && (finished ==> steps[i].state.Finished?);
    assert (steps + [last])[i] == steps[i];
  }

  /** Every event names its step by a title reported for it, and a finish by one reported with the finish. */
  lemma {:induction false} EventsNameTheirSteps(p: Progress, steps: seq<Step>, e: Event)
    requires e in EventsOf(p, steps)
    ensures e.StepStarted? ==> Titled(steps, e.id, e.name, false)
    ensures e.StepFinished? ==> Titled(steps, e.id, e.name, true)
    ensures e.StepStarted? || e.StepFinished?
    decreases |steps|
  {
    var front, last := steps[..|steps| - 1], steps[|steps| - 1];
    assert steps == front + [last];
    if e in EventsOf(p, front) {
      EventsNameTheirSteps(p, front, e);
      if e.StepStarted? { TitledEarlier(front, last, e.id, e.name, false); }
      if e.StepFinished? { TitledEarlier(front, last, e.id, e.name, true); }
    } else {
      AnnouncementNamesItsStep(After(p, front), steps, e);
    }
  }

  lemma AnnouncementNamesItsStep(p: Progress, steps: seq<Step>, e: Event)
    requires steps != [] && e in Announce(p, steps[|steps| - 1])
    ensures e.StepStarted? ==> Titled(steps, e.id, e.name, false)
    ensures e.StepFinished? ==> Titled(steps, e.id, e.name, true)
    ensures e.StepStarted? || e.StepFinished?
  {
    var i := |steps| - 1;
    var last := steps[i];
    assert Reports(steps[i], last.stepId) && Fits(last);
    assert e == StepStarted(last.stepId, last.title) || e == StepFinished(last.stepId, last.title);
    if e.StepFinished? {
      assert e !in (if last.stepId in p then [] else [StepStarted(last.stepId, last.title)]);
      assert steps[i].state.Finished?;
    }
  }

  lemma NoMarks(p: Progress, id: string)
    ensures Marks(EventsOf(p, []), id) == []
  {
  }

  lemma LastEvents(p: Progress, steps: seq<Step>)
    requires steps != []
    ensures var front, last := steps[..|steps| - 1], steps[|steps| - 1];
      EventsOf(p, steps) == EventsOf(p, front) + Announce(After(p, front), last)
  {
  }

  // ---------------------------------------------------------------- the life of one progress message

  datatype Cot = Cot(attempted: bool, active: bool, progress: Progress, built: seq<Event>)

  const UNTOUCHED := Cot(false, false, map[], [])

  /** What the call site brings: the surface, something to bind to, and whether Feishu accepts the creation. */
  datatype Contact = Contact(available: bool, bound: bool, accepted: bool)

  function Create(c: Cot, contact: Contact, steps: seq<Step>): Cot {
    if !contact.bound || !contact.accepted then c.(attempted := true)
    else Cot(true, true, After(map[], steps), c.built + [RunStarted] + EventsOf(map[], steps))
  }

  function Advance(c: Cot, contact: Contact, steps: seq<Step>): Cot {
    if !contact.available || steps == [] then c
    else if c.active then c.(progress := After(c.progress, steps), built := c.built + EventsOf(c.progress, steps))
    else if c.attempted then c
    else Create(c, contact, steps)
  }

  function Finish(c: Cot, available: bool, failed: bool): Cot {
    if !available || !c.active then c else c.(built := c.built + [RunFinished(failed)])
  }

  datatype Report = Report(contact: Contact, steps: seq<Step>)

  function Reported(c: Cot, reports: seq<Report>): Cot
    decreases |reports|
  {
    if reports == [] then c else Reported(Advance(c, reports[0].contact, reports[0].steps), reports[1..])
  }

  /** The first report that can open a message: there is a surface and it names steps. */
  function FirstTry(reports: seq<Report>): (f: nat)
    ensures f <= |reports| && (f < |reports| ==> reports[f].contact.available && reports[f].steps != [])
    ensures forall i :: 0 <= i < f ==> !reports[i].contact.available || reports[i].steps == []
    decreases |reports|
  {
    if reports == [] then 0
    else if reports[0].contact.available && reports[0].steps != [] then 0
    else 1 + FirstTry(reports[1..])
  }

  lemma {:induction false} ActiveStays(c: Cot, reports: seq<Report>)
    requires c.active
    ensures Reported(c, reports).active
    decreases |reports|
  {
    if reports != [] { ActiveStays(Advance(c, reports[0].contact, reports[0].steps), reports[1..]); }
  }

  /**
    A response has a progress message exactly if its one attempt found something to bind to and
    was accepted by Feishu: the attempt at the start if that is made, else the one at the first
    report that names steps while there is a surface.
  */
  lemma {:induction false} OpensAtTheFirstTry(reports: seq<Report>)
    ensures var f := FirstTry(reports);
      Reported(UNTOUCHED, reports).active <==>
        f < |reports| && reports[f].contact.bound && reports[f].contact.accepted
    decreases |reports|
  {
    if reports != [] {
      var next := Advance(UNTOUCHED, reports[0].contact, reports[0].steps);
      if reports[0].contact.available && reports[0].steps != [] {
        if next.active { ActiveStays(next, reports[1..]); } else { GivenUpForGood(next, reports[1..]); }
      } else {
        OpensAtTheFirstTry(reports[1..]);
      }
    }
  }

  lemma OpensAtTheStart(start: Report, reports: seq<Report>)
    ensures Reported(Create(UNTOUCHED, start.contact, start.steps), reports).active <==>
      start.contact.bound && start.contact.accepted
  {
    var c0 := Create(UNTOUCHED, start.contact, start.steps);
    if c0.active { ActiveStays(c0, reports); } else { GivenUpForGood(c0, reports); }
  }

  /** While there is a surface, an open message follows every report; without one it is left alone. */
  lemma ReportsAreFollowed(c: Cot, contact: Contact, steps: seq<Step>)
    requires c.active
    ensures var d := Advance(c, contact, steps);
      if contact.available then
        d.progress == After(c.progress, steps) && d.built == c.built + EventsOf(c.progress, steps)
      else d == c
  {
    assert c.built + [] == c.built;
  }

  predicate IsStep(e: Event) { e.StepStarted? || e.StepFinished? }

  ghost predicate AllFit(reports: seq<Report>) {
    forall i, j :: 0 <= i < |reports| && 0 <= j < |reports[i].steps| ==> Fits(reports[i].steps[j])
  }

  /** An open stream: the run's start, then step events only, as far as the progress goes. */
  ghost predicate Streaming(c: Cot, exact: bool) {
    && (!c.active ==> c.built == [] && c.progress == map[])
    && (c.active ==> c.attempted && c.built != [] && c.built[0] == RunStarted)
    && (forall i :: 1 <= i < |c.built| ==> IsStep(c.built[i]))
    && (forall id :: WithinDue(Marks(c.built, id), c.progress, id))
    && (exact ==> forall id :: Marks(c.built, id) == Due(c.progress, id))
  }

  lemma {:induction false} OnlySteps(p: Progress, steps: seq<Step>)
    ensures forall e :: e in EventsOf(p, steps) ==> IsStep(e)
    decreases |steps|
  {
    if steps != [] {
      OnlySteps(p, steps[..|steps| - 1]);
    }
  }

  lemma ActiveAdvances(c: Cot, steps: seq<Step>, exact: bool)
    requires Streaming(c, exact) && c.active && (exact ==> forall i :: 0 <= i < |steps| ==> Fits(steps[i]))
    ensures Streaming(c.(progress := After(c.progress, steps), built := c.built + EventsOf(c.progress, steps)), exact)
  {
    OnlySteps(c.progress, steps);
    forall id ensures WithinDue(Marks(c.built + EventsOf(c.progress, steps), id), After(c.progress, steps), id) {
      EventsStayWithinDue(c.progress, steps, c.built, id);
    }
    if exact {
      forall id ensures Marks(c.built + EventsOf(c.progress, steps), id) == Due(After(c.progress, steps), id) {
        EventsAreDue(c.progress, steps, c.built, id);
      }
    }
  }

  lemma CreateStreams(c: Cot, contact: Contact, steps: seq<Step>, exact: bool)
    requires Streaming(c, exact) && !c.active && (exact ==> forall i :: 0 <= i < |steps| ==> Fits(steps[i]))
    ensures Streaming(Create(c, contact, steps), exact)
  {
    var empty := Cot(true, true, map[], [RunStarted]);
    forall id ensures Marks([RunStarted], id) == [] {
      assert [RunStarted][..0] == [];
    }
    ActiveAdvances(empty, steps, exact);
    assert c.built + [RunStarted] + EventsOf(map[], steps) == empty.built + EventsOf(map[], steps);
  }

  lemma {:induction false} ReportsKeepStreaming(c: Cot, reports: seq<Report>, exact: bool)
    requires Streaming(c, exact) && (exact ==> AllFit(reports))
    ensures Streaming(Reported(c, reports), exact)
    decreases |reports|
  {
    if reports != [] {
      var first := reports[0];
      assert exact ==> forall i :: 0 <= i < |first.steps| ==> Fits(first.steps[i]);
      if first.contact.available && first.steps != [] {
        if c.active {
          ActiveAdvances(c, first.steps, exact);
        } else if !c.attempted {
          CreateStreams(c, first.contact, first.steps, exact);
        }
      }
      ReportsKeepStreaming(Advance(c, first.contact, first.steps), reports[1..], exact);
    }
  }

  /**
    Over the life of one response: opened at its start or at its first reported steps, advanced
    by any reports and then finished, the stream is RUN_STARTED, steps, RUN_FINISHED, with each
    step started at most once and finished at most once after that; exactly as far as it has come
    if every label fits. A progress message is never opened twice.
  */
  lemma StreamOfAResponse(eager: bool, start: Report, reports: seq<Report>, available: bool, failed: bool)
    ensures var c0 := if eager then Create(UNTOUCHED, start.contact, start.steps) else UNTOUCHED;
      var c := Reported(c0, reports);
      var exact := AllFit([start] + reports);
      && Streaming(c, exact)
      && (c.built == [] || (c.built[0] == RunStarted && RunStarted !in c.built[1..]))
      && Finish(c, available, failed).built == c.built + (if available && c.active then [RunFinished(failed)] else [])
      && (eager && !c0.active ==> c.built == [])
  {
    var exact := AllFit([start] + reports);
    assert exact ==> AllFit(reports) by {
      if exact {
        forall i, j | 0 <= i < |reports| && 0 <= j < |reports[i].steps| ensures Fits(reports[i].steps[j]) {
          assert ([start] + reports)[i + 1] == reports[i];
        }
      }
    }
    assert exact ==> forall j :: 0 <= j < |start.steps| ==> Fits(start.steps[j]) by {
      assert ([start] + reports)[0] == start;
    }
    assert Streaming(UNTOUCHED, exact);
    var c0 := if eager then Create(UNTOUCHED, start.contact, start.steps) else UNTOUCHED;
    if eager {
      CreateStreams(UNTOUCHED, start.contact, start.steps, exact);
    }
    ReportsKeepStreaming(c0, reports, exact);
    var c := Reported(c0, reports);
    if c.built != [] {
      assert forall i :: 0 <= i < |c.built[1..]| ==> IsStep(c.built[1..][i]);
    }
    if eager && !c0.active {
      GivenUpForGood(c0, reports);
    }
  }

  lemma {:induction false} GivenUpForGood(c: Cot, reports: seq<Report>)
    requires c.attempted && !c.active
    ensures Reported(c, reports) == c
    decreases |reports|
  {
    if reports != [] {
      GivenUpForGood(c, reports[1..]);
    }
  }
}
