/** How many messages the follow-up sends of one caller leave in the chat, over whole runs. */
module FollowUpMessages {
  import opened Options
  import opened MessageWindow
  import opened FollowUps

  /** The sends of one caller follow each other. */
  ghost predicate InTurn(w: World) {
    && (forall i :: 0 <= i < |w.ended| ==> w.ended[i].startedAt <= w.clock)
    && (forall caller :: caller in w.flights ==> w.flights[caller].startedAt <= w.clock)
    && (forall i :: 0 <= i < |w.ended| && w.ended[i].caller in w.flights ==>
          w.ended[i].startedAt <= w.flights[w.ended[i].caller].startedAt)
    && (forall i, j :: 0 <= i < j < |w.ended| && w.ended[i].caller == w.ended[j].caller ==>
          w.ended[i].startedAt <= w.ended[j].startedAt)
  }

  lemma StepInTurn(w: World, c: Config, e: Event)
    requires InTurn(w) && Possible(w, c, e)
    ensures InTurn(Step(w, c, e))
  {
    hide FollowUp, Commit, Abort, Grant, Refresh, Expire;
  }

  lemma {:induction false} RunInTurn(w: World, c: Config, events: seq<Event>)
    requires InTurn(w) && PossibleRun(w, c, events)
    ensures InTurn(Run(w, c, events))
    decreases |events|
  {
    hide Step, Possible, InTurn;
    if events != [] {
      StepInTurn(w, c, events[0]);
      RunInTurn(Step(w, c, events[0]), c, events[1..]);
    }
  }

  // ---------------------------------------------------------------- what may appear

  /** A send of this caller that may have appeared. */
  predicate MayCount(e: Ended, caller: Caller) { e.caller == caller && !Refuted(e) }

  /**
    One way the sends of a caller may have taken effect: `which` names the sends that did, every
    delivered one among them, and `order` their effects, each within the time its send had.
  */
  ghost predicate MayAppear(ended: seq<Ended>, c: Config, caller: Caller, which: seq<nat>,
                            order: seq<Landing<string>>) {
    && |which| == |order|
    && (forall k :: 0 <= k < |which| ==> which[k] < |ended| && MayCount(ended[which[k]], caller))
    && (forall k, m :: 0 <= k < m < |which| ==> which[k] != which[m])
    && (forall k :: 0 <= k < |which| ==>
          var e := ended[which[k]];
          order[k].uuid == e.handle && e.startedAt <= order[k].at <= e.startedAt + Timeout(c))
    && (forall i :: 0 <= i < |ended| && MayCount(ended[i], caller) && ended[i].outcome.Delivered? ==> i in which)
  }

  /** Every later send would also have passed the guard with the clock at an earlier one's start. */
  ghost predicate InTime(ended: seq<Ended>, c: Config, caller: Caller) {
    forall i, j :: 0 <= i < j < |ended| && MayCount(ended[i], caller) && MayCount(ended[j], caller) ==>
      !RetryWindowExhausted(ended[j].startedAt, c.sendTimeout, Some(ended[i].startedAt))
  }

  lemma {:induction false} Earliest(which: seq<nat>) returns (k: nat)
    requires which != []
    ensures k < |which| && forall m :: 0 <= m < |which| ==> which[k] <= which[m]
  {
    if |which| == 1 {
      k := 0;
    } else {
      k := Earliest(which[1..]);
      assert forall m :: 1 <= m < |which| ==> which[m] == which[1..][m - 1];
      k := if which[0] <= which[1..][k] then 0 else k + 1;
    }
  }

  lemma InTimeMeansOneMessage(w: World, c: Config, caller: Caller, which: seq<nat>, order: seq<Landing<string>>)
    requires c.ttl >= WINDOW && InTurn(w) && HandlesPinned(w.ended, c) && InTime(w.ended, c, caller)
      && MayAppear(w.ended, c, caller, which, order)
    ensures |Posted(order)| <= 1
  {
    NoMoreMessagesThanLandings(order);
    if |order| > 1 {
      var f := Earliest(which);
      var first := w.ended[which[f]];
      forall k | 0 <= k < |order|
        ensures order[k].uuid == first.handle && first.startedAt <= order[k].at < first.startedAt + WINDOW
      {
        if k == f {
          var other := if f == 0 then 1 else 0;
          assert which[f] < which[other];
        } else {
          assert which[f] < which[k];
        }
      }
      OneMessageAtMost(order, first.handle, first.startedAt);
    }
  }

  /** The sends of a caller that may have appeared among the first `n`, in the order they ended. */
  function Counting(ended: seq<Ended>, caller: Caller, n: nat): seq<nat>
    requires n <= |ended|
  {
    if n == 0 then []
    else if MayCount(ended[n - 1], caller) then Counting(ended, caller, n - 1) + [n - 1]
    else Counting(ended, caller, n - 1)
  }

  ghost predicate ListsAll(ended: seq<Ended>, caller: Caller, n: nat, which: seq<nat>)
    requires n <= |ended|
  {
    && (forall k :: 0 <= k < |which| ==> which[k] < n && MayCount(ended[which[k]], caller))
    && (forall k, m :: 0 <= k < m < |which| ==> which[k] < which[m])
    && (forall i :: 0 <= i < n && MayCount(ended[i], caller) ==> i in which)
  }

  lemma {:induction false} CountingIsAll(ended: seq<Ended>, caller: Caller, n: nat)
    requires n <= |ended|
    ensures ListsAll(ended, caller, n, Counting(ended, caller, n))
  {
    if n > 0 {
      CountingIsAll(ended, caller, n - 1);
    }
  }

  /** Every send takes effect at once, but the last as late as it can. */
  function AtOnceButTheLast(ended: seq<Ended>, c: Config, which: seq<nat>): (order: seq<Landing<string>>)
    requires forall k :: 0 <= k < |which| ==> which[k] < |ended|
    ensures |order| == |which|
  {
    seq(|which|, k requires 0 <= k < |which| =>
      var e := ended[which[k]];
      Landing(e.handle, if k == |which| - 1 then e.startedAt + Timeout(c) else e.startedAt))
  }

  lemma AllMayAppear(ended: seq<Ended>, c: Config, caller: Caller, which: seq<nat>)
    requires ListsAll(ended, caller, |ended|, which)
    ensures MayAppear(ended, c, caller, which, AtOnceButTheLast(ended, c, which))
  {
  }

  lemma InTurnMeansChronological(w: World, c: Config, caller: Caller, which: seq<nat>)
    requires InTurn(w) && ListsAll(w.ended, caller, |w.ended|, which)
    ensures Chronological(AtOnceButTheLast(w.ended, c, which))
  {
    var order := AtOnceButTheLast(w.ended, c, which);
    forall k, m | 0 <= k < m < |order| ensures order[k].at <= order[m].at {
      assert which[k] < which[m];
      assert w.ended[which[k]].startedAt <= w.ended[which[m]].startedAt;
    }
  }

  /** Of two sends too far apart the first is not the last, and the last is no nearer to it than the second. */
  lemma LastIsTooLate(w: World, c: Config, caller: Caller, which: seq<nat>, i: nat, j: nat) returns (a: nat)
    requires InTurn(w) && ListsAll(w.ended, caller, |w.ended|, which)
    requires i < j < |w.ended| && MayCount(w.ended[i], caller) && MayCount(w.ended[j], caller)
    ensures a < |which| - 1 && which[a] == i
    ensures w.ended[j].startedAt <= w.ended[which[|which| - 1]].startedAt
  {
    var b :| 0 <= b < |which| && which[b] == j;
    a :| 0 <= a < |which| && which[a] == i;
    assert a != b && !(b < a);
    assert b < |which| - 1 ==> which[b] < which[|which| - 1];
  }

  lemma EffectsAreFarApart(ended: seq<Ended>, c: Config, caller: Caller, which: seq<nat>, a: nat, i: nat, j: nat)
    requires ListsAll(ended, caller, |ended|, which) && a < |which| - 1 && which[a] == i && j < |ended|
    requires RetryWindowExhausted(ended[j].startedAt, c.sendTimeout, Some(ended[i].startedAt))
    requires ended[j].startedAt <= ended[which[|which| - 1]].startedAt
    ensures var order := AtOnceButTheLast(ended, c, which);
      order[a].at + WINDOW <= order[|which| - 1].at
  {
  }

  lemma TooLatePair(ended: seq<Ended>, c: Config, caller: Caller) returns (i: nat, j: nat)
    requires !InTime(ended, c, caller)
    ensures i < j < |ended| && MayCount(ended[i], caller) && MayCount(ended[j], caller)
    ensures RetryWindowExhausted(ended[j].startedAt, c.sendTimeout, Some(ended[i].startedAt))
  {
    i, j :| 0 <= i < j < |ended| && MayCount(ended[i], caller) && MayCount(ended[j], caller)
            && RetryWindowExhausted(ended[j].startedAt, c.sendTimeout, Some(ended[i].startedAt));
  }

  lemma TooLateMeansTwoMessages(w: World, c: Config, caller: Caller)
    returns (which: seq<nat>, order: seq<Landing<string>>)
    requires InTurn(w) && !InTime(w.ended, c, caller)
    ensures MayAppear(w.ended, c, caller, which, order) && Chronological(order) && |Posted(order)| >= 2
  {
    hide *;
    var i, j := TooLatePair(w.ended, c, caller);
    which := Counting(w.ended, caller, |w.ended|);
    CountingIsAll(w.ended, caller, |w.ended|);
    var a := LastIsTooLate(w, c, caller, which, i, j);
    AllMayAppear(w.ended, c, caller, which);
    InTurnMeansChronological(w, c, caller, which);
    EffectsAreFarApart(w.ended, c, caller, which, a, i, j);
    order := AtOnceButTheLast(w.ended, c, which);
    TwoFarApart(order, a, |which| - 1);
  }

  /**
    Over any interleaving and any number of forgotten routes, and for a lifetime of an hour or
    more, as configuration demands: however the effects of one caller's sends fell within the
    time each had, at most one message appeared, iff every retry would also have passed the guard
    with its clock at the start of any earlier attempt that may have appeared. Otherwise two
    messages appear even when the effects come in the order of their times.
  */
  lemma AtMostOneFollowUpIff(c: Config, clock: int, expiresAt: int, events: seq<Event>, caller: Caller)
    requires c.ttl >= WINDOW && PossibleRun(Recorded(clock, expiresAt), c, events)
    ensures var ended := Run(Recorded(clock, expiresAt), c, events).ended;
      && ((forall which, order :: MayAppear(ended, c, caller, which, order) ==> |Posted(order)| <= 1)
          <==> InTime(ended, c, caller))
      && (!InTime(ended, c, caller) ==>
            exists which, order ::
              MayAppear(ended, c, caller, which, order) && Chronological(order) && |Posted(order)| >= 2)
  {
    HandleReplacedOnlyAfterRefusal(c, clock, expiresAt, events);
    RunInTurn(Recorded(clock, expiresAt), c, events);
    var w := Run(Recorded(clock, expiresAt), c, events);
    if InTime(w.ended, c, caller) {
      forall which, order | MayAppear(w.ended, c, caller, which, order) ensures |Posted(order)| <= 1 {
        InTimeMeansOneMessage(w, c, caller, which, order);
      }
    } else {
      var which, order := TooLateMeansTwoMessages(w, c, caller);
    }
  }
}
