/**
  Feishu's one-hour memory of message UUIDs, and the daemon's rule for stopping retries before
  it runs out. Times are milliseconds.
*/
module MessageWindow {
  import opened Options

  const WINDOW: int := 60 * 60 * 1000

  /** The moment a send takes effect at Feishu, if it ever does. */
  datatype Landing<U> = Landing(uuid: U, at: int)

  /** The messages that appear: a landing is swallowed iff its UUID made a message less than an hour ago. */
  function Posted<U(==)>(order: seq<Landing<U>>): seq<Landing<U>> {
    if order == [] then []
    else
      var before, last := Posted(order[..|order| - 1]), order[|order| - 1];
      if exists i :: 0 <= i < |before| && before[i].uuid == last.uuid && last.at < before[i].at + WINDOW then before
      else before + [last]
  }

  predicate SameMessage<U(==)>(order: seq<Landing<U>>, uuid: U, first: int) {
    forall i :: 0 <= i < |order| ==> order[i].uuid == uuid && first <= order[i].at < first + WINDOW
  }

  /** Landings of one UUID within one window make at most one message, in whatever order they come. */
  lemma {:induction false} OneMessageAtMost<U>(order: seq<Landing<U>>, uuid: U, first: int)
    requires SameMessage(order, uuid, first)
    ensures |Posted(order)| <= 1
    ensures forall i :: 0 <= i < |Posted(order)| ==> Posted(order)[i] in order
    ensures order != [] ==> |Posted(order)| == 1
  {
    if order != [] {
      var front, last := order[..|order| - 1], order[|order| - 1];
      assert forall i :: 0 <= i < |front| ==> front[i] == order[i];
      OneMessageAtMost(front, uuid, first);
      if front != [] {
        var p := Posted(front)[0];
        var j :| 0 <= j < |front| && front[j] == p;
        assert order[j] == p && p.uuid == last.uuid && last.at < p.at + WINDOW;
        assert Posted(order) == Posted(front);
      }
    }
  }

  lemma {:induction false} NoMoreMessagesThanLandings<U>(order: seq<Landing<U>>)
    ensures |Posted(order)| <= |order|
  {
    if order != [] {
      NoMoreMessagesThanLandings(order[..|order| - 1]);
    }
  }

  /** The guard of every retry: its latest possible effect must precede the end of the window. */
  predicate RetryWindowExhausted(now: int, sendTimeout: int, ambiguousAt: Option<int>) {
    ambiguousAt.Some?
    && now + (if sendTimeout < 0 then 0 else sendTimeout) >= ambiguousAt.value + WINDOW
  }

  /** Two sends under one UUID: the second is swallowed exactly within the hour. */
  lemma PostedPair<U>(uuid: U, posted: int, effect: int)
    ensures |Posted([Landing(uuid, posted), Landing(uuid, effect)])| == if effect < posted + WINDOW then 1 else 2
  {
    var first, second := Landing(uuid, posted), Landing(uuid, effect);
    assert [first, second][..1] == [first] && [first][..0] == [];
    assert Posted([first]) == [first];
    assert [first][0].uuid == second.uuid;
  }

  predicate Chronological<U>(order: seq<Landing<U>>) {
    forall k, m :: 0 <= k < m < |order| ==> order[k].at <= order[m].at
  }

  /** The message that a landing made, or was swallowed by. */
  ghost predicate Covers<U>(message: Landing<U>, landing: Landing<U>) {
    message.uuid == landing.uuid && message.at <= landing.at < message.at + WINDOW
  }

  lemma {:induction false} PostedAreLandings<U>(order: seq<Landing<U>>)
    ensures forall p :: p in Posted(order) ==> p in order
  {
    if order != [] {
      PostedAreLandings(order[..|order| - 1]);
    }
  }

  lemma {:induction false} EveryLandingIsCovered<U>(order: seq<Landing<U>>, k: nat)
    requires Chronological(order) && k < |order|
    ensures exists p :: p in Posted(order) && Covers(p, order[k])
    decreases |order|
  {
    var front, last := order[..|order| - 1], order[|order| - 1];
    if k < |front| {
      EveryLandingIsCovered(front, k);
      var p :| p in Posted(front) && Covers(p, front[k]);
      assert p in Posted(order);
    } else {
      PostedAreLandings(front);
      var before := Posted(front);
      if i :| 0 <= i < |before| && before[i].uuid == last.uuid && last.at < before[i].at + WINDOW {
        assert before[i] in front;
        assert before[i] in Posted(order) && Covers(before[i], last);
      } else {
        assert last in Posted(order) && Covers(last, last);
      }
    }
  }

  /** Effects under two UUIDs, or an hour apart under one, leave two messages, whatever comes between. */
  lemma TwoFarApart<U>(order: seq<Landing<U>>, a: nat, b: nat)
    requires Chronological(order) && a < b < |order|
    requires order[a].uuid != order[b].uuid || order[a].at + WINDOW <= order[b].at
    ensures |Posted(order)| >= 2
  {
    EveryLandingIsCovered(order, a);
    EveryLandingIsCovered(order, b);
    var p :| p in Posted(order) && Covers(p, order[a]);
    var q :| q in Posted(order) && Covers(q, order[b]);
    assert p != q;
    hide Posted;
  }
}
