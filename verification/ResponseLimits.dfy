/**
  Where the response protocol keeps less than its documentation promises, and exactly when it
  keeps it: a UUID derived a second time, and a replay that no longer fits the size budget.
*/
module ResponseLimits {
  import opened Options
  import opened CardFailures
  import opened CardChannel
  import opened ResponseProtocol
  import opened ResponseProofs
  import opened CardSequence
  import opened CardAgreement

  // ---------------------------------------------------------------- a reused id

  const PANEL := TimelineState(true, "steps", "working")
  const REFUSED := Outcome.Failed(Api(400, 230001))

  /** The answer "first" lands, the timeline is rejected for good: the operation is withdrawn. */
  const WITHDRAWN :=
    Command("op", Update(1, "first", Parts("more steps", ""), []), Net(Accepted, REFUSED, Accepted, Accepted))

  /** The same id again, with a corrected answer. */
  const CORRECTED := Command("op", Update(1, "second", Parts("", ""), []), ALL_ACCEPTED)

  lemma RunOfTwo(s: Session, a: Command, b: Command)
    ensures var out1 := Perform(s.response, a);
      var out2 := Perform(out1.response, b);
      Run(s, [a, b]) == Session(out2.response, s.log + out1.issued + out2.issued)
  {
    var out1 := Perform(s.response, a);
    var s1 := Session(out1.response, s.log + out1.issued);
    assert [a, b][1..] == [b] && [b][1..] == [];
    assert Run(s1, [b]) == Run(Session(Perform(s1.response, b).response, s1.log + Perform(s1.response, b).issued), []);
  }

  const FIRST_ANSWER := Call(Answer("first"), Uuid(ContentRole, "op"), 1)
  const MORE_STEPS := Call(Body("more steps"), Uuid(TimelineRole, "op"), 2)
  const SECOND_ANSWER := Call(Answer("second"), Uuid(ContentRole, "op"), 2)
  const REUSED_LOG := [Attempt(FIRST_ANSWER, Accepted), Attempt(MORE_STEPS, REFUSED), Attempt(SECOND_ANSWER, Accepted)]

  /** The response after the withdrawal: the answer is on the card, its call counted, the operation gone. */
  const AFTER_WITHDRAWAL := Opened("", PANEL).(markdown := "first", nextSequence := 1)

  lemma TheFirstIsWithdrawn()
    ensures var out := Perform(Opened("", PANEL), WITHDRAWN);
      out.response == AFTER_WITHDRAWAL && out.issued == [Attempt(FIRST_ANSWER, Accepted), Attempt(MORE_STEPS, REFUSED)]
  {
    var out := Perform(Opened("", PANEL), WITHDRAWN);
    assert Plan(Opened("", PANEL), "op", WITHDRAWN.request) == [FIRST_ANSWER, MORE_STEPS];
    assert out.issued == [Attempt(FIRST_ANSWER, Accepted), Attempt(MORE_STEPS, REFUSED)];
    assert out.response.ops == map[];
  }

  lemma TheSecondCompletes()
    ensures var out := Perform(AFTER_WITHDRAWAL, CORRECTED);
      out.issued == [Attempt(SECOND_ANSWER, Accepted)]
      && out.response.revision == 2 && out.response.markdown == "second"
  {
    var out := Perform(AFTER_WITHDRAWAL, CORRECTED);
    assert Plan(AFTER_WITHDRAWAL, "op", CORRECTED.request) == [SECOND_ANSWER];
    assert out.issued == [Attempt(SECOND_ANSWER, Accepted)];
  }

  lemma RunOfReusedId()
    ensures var s := Run(StartedSession("", PANEL), [WITHDRAWN, CORRECTED]);
      s.log == REUSED_LOG && s.response.revision == 2 && s.response.markdown == "second"
  {
    TheFirstIsWithdrawn();
    TheSecondCompletes();
    hide Perform;
    RunOfTwo(StartedSession("", PANEL), WITHDRAWN, CORRECTED);
  }

  lemma FeishuOnReusedLog()
    ensures var events := [Sent(REUSED_LOG[0]), Sent(REUSED_LOG[1]), Sent(REUSED_LOG[2])];
      Sends(events) == REUSED_LOG && Plausible(events) && Applied(events) == [FIRST_ANSWER]
  {
    var events := [Sent(REUSED_LOG[0]), Sent(REUSED_LOG[1]), Sent(REUSED_LOG[2])];
    var two := [Sent(REUSED_LOG[0]), Sent(REUSED_LOG[1])];
    var one := [Sent(REUSED_LOG[0])];
    assert events[..2] == two && two[..1] == one && one[..0] == [];
    assert Sends(one) == [REUSED_LOG[0]] && Applied(one) == [FIRST_ANSWER] && Plausible(one);
    assert Sends(two) == [REUSED_LOG[0], REUSED_LOG[1]] && Applied(two) == [FIRST_ANSWER] && Plausible(two);
    assert Carries([FIRST_ANSWER], SECOND_ANSWER.uuid) by { assert [FIRST_ANSWER][0].uuid == SECOND_ANSWER.uuid; }
  }

  /**
    A withdrawn id used again for a corrected answer is acknowledged and gets its receipt, the
    shadow says "second", and the card still says "first".
  */
  lemma ReusedIdLosesTheCorrection()
    ensures var s := Run(StartedSession("", PANEL), [WITHDRAWN, CORRECTED]);
      s.response.revision == 2 && s.response.markdown == "second"
      && exists events :: Sends(events) == s.log && Plausible(events)
           && Show(StartedCard("", PANEL), Applied(events)).answer == "first"
  {
    RunOfReusedId();
    FeishuOnReusedLog();
    var events := [Sent(REUSED_LOG[0]), Sent(REUSED_LOG[1]), Sent(REUSED_LOG[2])];
    assert [FIRST_ANSWER][..0] == [];
    assert Show(StartedCard("", PANEL), []) == StartedCard("", PANEL);
    assert Show(StartedCard("", PANEL), Applied(events)).answer == "first";
  }

  // ---------------------------------------------------------------- a replay over budget

  /**
    A completed operation submitted again is answered with its recorded receipt, and no call,
    exactly when the request still fits beside the timeline the card carries by now.
  */
  lemma CompletedReplayAnsweredIffWithinBudget(r: Response, id: string, net: Net)
    requires Inv(r) && id in r.ops && r.ops[id].Done?
    requires Screen(id, r.ops[id].request).None?
    ensures var op := r.ops[id];
      var out := Submit(r, id, op.request, net);
      && out.response == r && out.issued == []
      && (out.reply == Receipt(op.request.expected + 1, op.phase, true) <==> WithinBudget(r, op.request))
      && (out.reply.Receipt? || out.reply == Error(FieldTooLarge))
  {
  }

  function Text(n: nat): (s: string)
    ensures |s| == n
  {
    seq(n, _ => 'a')
  }

  /** A long answer, then a short answer beside a long timeline: the first can no longer be replayed. */
  lemma ReplayCanBeRefused()
    ensures var long := Command("first", Update(1, Text(20000), Parts("", ""), []), ALL_ACCEPTED);
      var grown := Command("second", Update(2, "short", Parts(Text(20000), ""), []), ALL_ACCEPTED);
      var r := Run(StartedSession("", PANEL), [long, grown]).response;
      && "first" in r.ops && r.ops["first"] == Done(long.request, 2, Streaming)
      && Perform(r, long).reply == Error(FieldTooLarge)
  {
    var long := Command("first", Update(1, Text(20000), Parts("", ""), []), ALL_ACCEPTED);
    var grown := Command("second", Update(2, "short", Parts(Text(20000), ""), []), ALL_ACCEPTED);
    var s0 := StartedSession("", PANEL);
    var out1 := Perform(s0.response, long);
    assert out1.reply == Receipt(2, Streaming, false);
    assert out1.response.ops == map["first" := Done(long.request, 2, Streaming)];
    assert out1.response.timeline == PANEL;
    var claimed := Claim(out1.response, "second", grown.request);
    assert |Text(20000)| == 20000 && |PANEL.markdown| < 100;
    var plan := Plan(out1.response, "second", grown.request);
    assert plan == [Call(Answer("short"), Uuid(ContentRole, "second"), 2),
                    Call(Body(Text(20000)), Uuid(TimelineRole, "second"), 3)];
    var once := Acknowledge(claimed, "second", plan[0]);
    var twice := Acknowledge(once, "second", plan[1]);
    assert Drive(twice, "second", ALL_ACCEPTED).response == Complete(twice, "second");
    assert Drive(once, "second", ALL_ACCEPTED).response == Complete(twice, "second");
    assert Perform(out1.response, grown).response == Complete(twice, "second");
    RunOfTwo(s0, long, grown);
  }
}
