/** How a notification's source and dedupe key become one store key, per application. */
module DedupeKeys {
  const NUL := '\0'
  const DEFAULT_APP := "default"
  const NAMED_PREFIX := "feishu-botd/internal-app-dedupe/v2:"
  const DIGEST_PREFIX := "feishu-botd/app-dedupe/v2\0"
  const DIGEST_LENGTH := 64
  const MAX_SOURCE := 64

  predicate Plain(s: string) { NUL !in s }

  /** The shape of a hex digest. */
  ghost predicate Digest(digest: string -> string) {
    forall s :: |digest(s)| == DIGEST_LENGTH && Plain(digest(s))
  }

  function DigestInput(app: string, source: string): string { DIGEST_PREFIX + app + [NUL] + source }

  function Source(digest: string -> string, app: string, source: string): string {
    if app == DEFAULT_APP then source else NAMED_PREFIX + digest(DigestInput(app, source))
  }

  function FullKey(source: string, key: string): string { source + [NUL] + key }

  /** Two strings cut at their first NUL agree on both sides of it. */
  lemma CutAtNul(a: string, x: string, b: string, y: string)
    requires Plain(a) && Plain(b) && a + [NUL] + x == b + [NUL] + y
    ensures a == b && x == y
  {
    var s := a + [NUL] + x;
    assert s == b + [NUL] + y;
    assert s[|a|] == NUL && s[|b|] == NUL;
    assert |a| == |b|;
    assert a == s[..|a|] && b == s[..|b|];
    assert x == s[|a| + 1..] && y == s[|b| + 1..];
  }

  /**
    Two pairs share a store key exactly when they are equal or one source carries the other, a
    NUL and the lost part of the key.
  */
  lemma SharedKeyIff(source: string, key: string, longer: string, key': string)
    requires |source| <= |longer|
    ensures FullKey(source, key) == FullKey(longer, key') <==>
              (source == longer && key == key')
              || exists rest :: longer == source + [NUL] + rest && key == rest + [NUL] + key'
  {
    var a, b := FullKey(source, key), FullKey(longer, key');
    if a == b {
      assert source == a[..|source|] == b[..|source|] == longer[..|source|];
      if |source| == |longer| {
        assert key == a[|source| + 1..] && key' == b[|longer| + 1..];
      } else {
        var rest := longer[|source| + 1..];
        assert a[|source|] == NUL && b[|source|] == longer[|source|];
        assert longer == source + [NUL] + rest;
        assert key == a[|source| + 1..] == b[|source| + 1..] == rest + [NUL] + key';
      }
    }
    forall rest | longer == source + [NUL] + rest && key == rest + [NUL] + key' ensures a == b {
      assert a == source + ([NUL] + (rest + ([NUL] + key'))) == b;
    }
  }

  lemma NamedSourceShape(digest: string -> string, app: string, source: string)
    requires Digest(digest) && app != DEFAULT_APP
    ensures Plain(Source(digest, app, source)) && |Source(digest, app, source)| == 99
  {
    var d := digest(DigestInput(app, source));
    assert Source(digest, app, source) == NAMED_PREFIX + d;
    assert |NAMED_PREFIX| == 35 && Plain(NAMED_PREFIX);
  }

  /**
    No entry of one application can be reached through another, whatever source a caller of the
    default application sends, as long as it fits the caller's limit. Named applications never
    confuse two of their own entries either.
  */
  lemma AppsNeverShareAnEntry(digest: string -> string, app: string, source: string, key: string,
                              app': string, source': string, key': string)
    requires Digest(digest) && Plain(app) && Plain(app') && |source| <= 64 && |source'| <= 64
    // the digest has no collision between these two inputs
    requires digest(DigestInput(app, source)) == digest(DigestInput(app', source')) ==>
               DigestInput(app, source) == DigestInput(app', source')
    requires FullKey(Source(digest, app, source), key) == FullKey(Source(digest, app', source'), key')
    ensures app == app'
    ensures app != DEFAULT_APP ==> source == source' && key == key'
  {
    var full := FullKey(Source(digest, app, source), key);
    assert full[|Source(digest, app, source)|] == NUL && full[|Source(digest, app', source')|] == NUL;
    if app != DEFAULT_APP && app' != DEFAULT_APP {
      NamedSourceShape(digest, app, source);
      NamedSourceShape(digest, app', source');
      var a, b := Source(digest, app, source), Source(digest, app', source');
      CutAtNul(a, key, b, key');
      assert digest(DigestInput(app, source)) == a[35..] == b[35..] == digest(DigestInput(app', source'));
      assert app + [NUL] + source == DigestInput(app, source)[|DIGEST_PREFIX|..];
      assert app' + [NUL] + source' == DigestInput(app', source')[|DIGEST_PREFIX|..];
      CutAtNul(app, source, app', source');
    } else if app != DEFAULT_APP {
      NamedSourceShape(digest, app, source);
      assert false;
    } else if app' != DEFAULT_APP {
      NamedSourceShape(digest, app', source');
      assert false;
    }
  }
}

/**
  The reservation protocol of notifications: reserve a key, send, then commit or give it back.
  Calls interleave freely between their reservation and the return of their send.
*/
module Dedupe {
  import opened Options

  datatype Entry = Entry(fingerprint: string, messageId: string, inFlight: bool, expiresAt: int)

  datatype Verdict = Fresh | InFlight | Conflict | Duplicate(messageId: string)

  type Entries = map<string, Entry>

  datatype Reservation = Reservation(entries: Entries, verdict: Verdict)

  function Reserve(entries: Entries, ttl: int, key: string, fingerprint: string, now: int): Reservation {
    if key in entries && now <= entries[key].expiresAt then
      Reservation(entries,
                  if entries[key].fingerprint != fingerprint then Conflict
                  else if entries[key].inFlight then InFlight
                  else Duplicate(entries[key].messageId))
    else
      Reservation(entries[key := Entry(fingerprint, "", true, now + ttl)], Fresh)
  }

  function Commit(entries: Entries, ttl: int, key: string, messageId: string, now: int): Entries {
    if key in entries then
      entries[key := entries[key].(messageId := messageId, inFlight := false, expiresAt := now + ttl)]
    else entries
  }

  function Abort(entries: Entries, key: string): Entries { entries - {key} }

  // ---------------------------------------------------------------- runs

  datatype Sending = Sending(key: string, fingerprint: string, startedAt: int)

  /** `sending` holds the sends that have not returned, by attempt number. */
  datatype World = World(entries: Entries, sending: map<nat, Sending>, next: nat, clock: int)

  datatype Event =
    | Deliver(key: string, fingerprint: string, at: int)
    | Returns(attempt: nat, messageId: Option<string>, at: int)

  function Step(w: World, e: Event, ttl: int): World {
    match e
    case Deliver(key, fingerprint, at) =>
      var r := Reserve(w.entries, ttl, key, fingerprint, at);
      if r.verdict == Fresh then World(r.entries, w.sending[w.next := Sending(key, fingerprint, at)], w.next + 1, at)
      else World(r.entries, w.sending, w.next, at)
    case Returns(attempt, messageId, at) =>
      if attempt !in w.sending then w.(clock := at)
      else
        var key := w.sending[attempt].key;
        World(if messageId.Some? then Commit(w.entries, ttl, key, messageId.value, at) else Abort(w.entries, key),
              w.sending - {attempt}, w.next, at)
  }

  /** Time moves forward and every send returns by its deadline. */
  ghost predicate Timely(w: World, at: int, sendTimeout: int) {
    w.clock <= at && forall i :: i in w.sending ==> at <= w.sending[i].startedAt + sendTimeout
  }

  ghost predicate Possible(w: World, events: seq<Event>, ttl: int, sendTimeout: int)
    decreases |events|
  {
    events == []
    || (Timely(w, events[0].at, sendTimeout) && Possible(Step(w, events[0], ttl), events[1..], ttl, sendTimeout))
  }

  function Run(w: World, events: seq<Event>, ttl: int): World
    decreases |events|
  {
    if events == [] then w else Run(Step(w, events[0], ttl), events[1..], ttl)
  }

  const IDLE := World(map[], map[], 0, 0)

  ghost predicate OneSendPerKey(w: World) {
    forall i, j :: i in w.sending && j in w.sending && w.sending[i].key == w.sending[j].key ==> i == j
  }

  /** Every send in flight holds its key's reservation, and no other send does. */
  ghost predicate Inv(w: World, ttl: int) {
    && OneSendPerKey(w)
    && (forall i :: i in w.sending ==> i < w.next && w.sending[i].key in w.entries)
    && (forall i :: i in w.sending ==>
          w.entries[w.sending[i].key] == Entry(w.sending[i].fingerprint, "", true, w.sending[i].startedAt + ttl))
  }

  lemma DeliverInv(w: World, e: Event, ttl: int, sendTimeout: int)
    requires sendTimeout <= ttl && Inv(w, ttl) && Timely(w, e.at, sendTimeout) && e.Deliver?
    ensures Inv(Step(w, e, ttl), ttl)
  {
  }

  lemma ReturnsInv(w: World, e: Event, ttl: int)
    requires Inv(w, ttl) && e.Returns?
    ensures Inv(Step(w, e, ttl), ttl)
  {
  }

  lemma StepInv(w: World, e: Event, ttl: int, sendTimeout: int)
    requires sendTimeout <= ttl && Inv(w, ttl) && Timely(w, e.at, sendTimeout)
    ensures Inv(Step(w, e, ttl), ttl)
  {
    hide Inv, Step, Timely;
    if e.Deliver? { DeliverInv(w, e, ttl, sendTimeout); } else { ReturnsInv(w, e, ttl); }
  }

  lemma {:induction false} RunInv(w: World, events: seq<Event>, ttl: int, sendTimeout: int)
    requires sendTimeout <= ttl && Inv(w, ttl) && Possible(w, events, ttl, sendTimeout)
    ensures Inv(Run(w, events, ttl), ttl)
    decreases |events|
  {
    if events != [] {
      StepInv(w, events[0], ttl, sendTimeout);
      RunInv(Step(w, events[0], ttl), events[1..], ttl, sendTimeout);
    }
  }

  // ---------------------------------------------------------------- main results

  /** In every interleaving at most one send per key is in flight, exactly when an entry outlives its send. */
  lemma OneSendInFlightIffEntriesOutliveSends(ttl: nat, sendTimeout: nat)
    ensures (forall events :: Possible(IDLE, events, ttl, sendTimeout) ==> OneSendPerKey(Run(IDLE, events, ttl)))
            <==> sendTimeout <= ttl
  {
    if sendTimeout <= ttl {
      forall events | Possible(IDLE, events, ttl, sendTimeout) ensures OneSendPerKey(Run(IDLE, events, ttl)) {
        RunInv(IDLE, events, ttl, sendTimeout);
      }
    } else {
      var twice := [Deliver("k", "f", 0), Deliver("k", "f", ttl + 1)];
      TwoSendsOverlap(ttl, sendTimeout);
      assert !OneSendPerKey(Run(IDLE, twice, ttl));
    }
  }

  /** A repeat just after a short-lived entry expired goes out while the first send is still allowed to run. */
  lemma TwoSendsOverlap(ttl: nat, sendTimeout: nat)
    requires ttl < sendTimeout
    ensures var twice := [Deliver("k", "f", 0), Deliver("k", "f", ttl + 1)];
      && Possible(IDLE, twice, ttl, sendTimeout)
      && !OneSendPerKey(Run(IDLE, twice, ttl))
  {
    var twice := [Deliver("k", "f", 0), Deliver("k", "f", ttl + 1)];
    var w1 := Step(IDLE, twice[0], ttl);
    var w2 := Step(w1, twice[1], ttl);
    assert w1.sending == map[0 := Sending("k", "f", 0)];
    assert 0 in w2.sending && 1 in w2.sending && w2.sending[0].key == w2.sending[1].key;
    assert twice[1..] == [twice[1]] && [twice[1]][1..] == [];
    assert Run(w1, [twice[1]], ttl) == Run(w2, [], ttl) == w2;
    assert Possible(w1, [twice[1]], ttl, sendTimeout);
  }

  /**
    While a send is in flight, a repeat of it is told so and other content under its key conflicts:
    neither is sent.
  */
  lemma NothingIsSentBesideASendInFlight(events: seq<Event>, ttl: nat, sendTimeout: nat, attempt: nat,
                                         fingerprint: string, at: int)
    requires sendTimeout <= ttl && Possible(IDLE, events, ttl, sendTimeout)
    requires var w := Run(IDLE, events, ttl); attempt in w.sending && Timely(w, at, sendTimeout)
    ensures var w := Run(IDLE, events, ttl); var sending := w.sending[attempt];
      Reserve(w.entries, ttl, sending.key, fingerprint, at) ==
      Reservation(w.entries, if fingerprint == sending.fingerprint then InFlight else Conflict)
  {
    RunInv(IDLE, events, ttl, sendTimeout);
  }

  ghost predicate Settled(w: World, key: string, entry: Entry) {
    && key in w.entries && w.entries[key] == entry
    && forall i :: i in w.sending ==> w.sending[i].key != key
  }

  /**
    From the moment a send is committed until its entry expires, whatever else is delivered or
    returns, the same content is answered with the committed message, other content conflicts,
    and nothing is sent under that key.
  */
  lemma {:induction false} CommittedUntilItExpires(w: World, key: string, entry: Entry, events: seq<Event>,
                                                   ttl: nat, sendTimeout: nat)
    requires Settled(w, key, entry) && !entry.inFlight
    requires Possible(w, events, ttl, sendTimeout) && Run(w, events, ttl).clock <= entry.expiresAt
    ensures var v := Run(w, events, ttl);
      && Settled(v, key, entry)
      && forall fingerprint, at :: v.clock <= at <= entry.expiresAt ==>
           Reserve(v.entries, ttl, key, fingerprint, at) ==
           Reservation(v.entries, if fingerprint == entry.fingerprint then Duplicate(entry.messageId) else Conflict)
    decreases |events|
  {
    if events != [] {
      ClockMovesOn(Step(w, events[0], ttl), events[1..], ttl, sendTimeout);
      CommittedUntilItExpires(Step(w, events[0], ttl), key, entry, events[1..], ttl, sendTimeout);
    }
  }

  lemma {:induction false} ClockMovesOn(w: World, events: seq<Event>, ttl: int, sendTimeout: int)
    requires Possible(w, events, ttl, sendTimeout)
    ensures w.clock <= Run(w, events, ttl).clock
    decreases |events|
  {
    if events != [] {
      ClockMovesOn(Step(w, events[0], ttl), events[1..], ttl, sendTimeout);
    }
  }

  /** A returning send settles its key for a full lifetime, under what it sent. */
  lemma ReturningCommits(events: seq<Event>, ttl: nat, sendTimeout: nat, attempt: nat, messageId: string, at: int)
    requires sendTimeout <= ttl && Possible(IDLE, events, ttl, sendTimeout)
    requires attempt in Run(IDLE, events, ttl).sending
    ensures var w := Run(IDLE, events, ttl);
      Settled(Step(w, Returns(attempt, Some(messageId), at), ttl), w.sending[attempt].key,
              Entry(w.sending[attempt].fingerprint, messageId, false, at + ttl))
  {
    RunInv(IDLE, events, ttl, sendTimeout);
  }

  // ---------------------------------------------------------------- the answer, told from the events

  /** The k-th event is the successful return of a send under this key. */
  predicate CommitsAt(events: seq<Event>, k: int, ttl: int, key: string) {
    0 <= k < |events| && events[k].Returns? && events[k].messageId.Some?
    && events[k].attempt in Run(IDLE, events[..k], ttl).sending
    && Run(IDLE, events[..k], ttl).sending[events[k].attempt].key == key
  }

  /** What that send had sent, and the message it became. */
  function EntryAt(events: seq<Event>, k: int, ttl: int, key: string): Entry
    requires CommitsAt(events, k, ttl, key)
  {
    Entry(Run(IDLE, events[..k], ttl).sending[events[k].attempt].fingerprint, events[k].messageId.value, false,
          events[k].at + ttl)
  }

  /** What is kept and not in flight is the last commit; what was committed is kept till it expires. */
  ghost predicate Told(w: World, events: seq<Event>, ttl: int) {
    && (forall key :: key in w.entries && !w.entries[key].inFlight ==>
          exists k :: CommitsAt(events, k, ttl, key) && w.entries[key] == EntryAt(events, k, ttl, key))
    && (forall key :: key in w.entries && w.entries[key].inFlight ==> SentUnder(w, key))
    && (forall k, key :: CommitsAt(events, k, ttl, key) && w.clock <= events[k].at + ttl ==>
          key in w.entries && w.entries[key] == EntryAt(events, k, ttl, key))
  }

  lemma {:induction false} RunOneMore(w: World, events: seq<Event>, e: Event, ttl: int)
    ensures Run(w, events + [e], ttl) == Step(Run(w, events, ttl), e, ttl)
    decreases |events|
  {
    hide Step;
    if events == [] {
      assert [e][1..] == [] && events + [e] == [e];
    } else {
      assert (events + [e])[1..] == events[1..] + [e];
      RunOneMore(Step(w, events[0], ttl), events[1..], e, ttl);
    }
  }

  lemma {:induction false} PossibleOneMore(w: World, events: seq<Event>, e: Event, ttl: int, sendTimeout: int)
    requires Possible(w, events + [e], ttl, sendTimeout)
    ensures Possible(w, events, ttl, sendTimeout) && Timely(Run(w, events, ttl), e.at, sendTimeout)
    decreases |events|
  {
    hide Step, Timely;
    if events == [] {
      assert events + [e] == [e];
    } else {
      assert (events + [e])[1..] == events[1..] + [e] && (events + [e])[0] == events[0];
      PossibleOneMore(Step(w, events[0], ttl), events[1..], e, ttl, sendTimeout);
    }
  }

  /** Whether an event commits depends on it and the events before it alone. */
  lemma CommitsEarlier(events: seq<Event>, e: Event, ttl: int, k: int, key: string)
    requires k < |events|
    ensures CommitsAt(events + [e], k, ttl, key) <==> CommitsAt(events, k, ttl, key)
    ensures CommitsAt(events, k, ttl, key) ==> EntryAt(events + [e], k, ttl, key) == EntryAt(events, k, ttl, key)
  {
    if 0 <= k { assert (events + [e])[..k] == events[..k]; }
  }

  lemma CommitsNow(events: seq<Event>, e: Event, ttl: int, key: string)
    ensures CommitsAt(events + [e], |events|, ttl, key) <==>
      e.Returns? && e.messageId.Some? && e.attempt in Run(IDLE, events, ttl).sending
      && Run(IDLE, events, ttl).sending[e.attempt].key == key
    ensures CommitsAt(events + [e], |events|, ttl, key) ==>
      EntryAt(events + [e], |events|, ttl, key)
      == Entry(Run(IDLE, events, ttl).sending[e.attempt].fingerprint, e.messageId.value, false, e.at + ttl)
  {
    assert (events + [e])[..|events|] == events;
  }

  lemma LastCommit(events: seq<Event>, e: Event, ttl: nat, key: string) returns (k: int)
    requires var w := Run(IDLE, events, ttl); var v := Step(w, e, ttl);
      Inv(w, ttl) && Told(w, events, ttl) && key in v.entries && !v.entries[key].inFlight
    ensures CommitsAt(events + [e], k, ttl, key)
    ensures Step(Run(IDLE, events, ttl), e, ttl).entries[key] == EntryAt(events + [e], k, ttl, key)
  {
    hide Run;
    var w := Run(IDLE, events, ttl);
    CommitsNow(events, e, ttl, key);
    if CommitsAt(events + [e], |events|, ttl, key) {
      k := |events|;
    } else {
      assert key in w.entries && Step(w, e, ttl).entries[key] == w.entries[key];
      k :| CommitsAt(events, k, ttl, key) && w.entries[key] == EntryAt(events, k, ttl, key);
      CommitsEarlier(events, e, ttl, k, key);
    }
  }

  lemma StepTold(events: seq<Event>, e: Event, ttl: nat, sendTimeout: int)
    requires sendTimeout <= ttl && Possible(IDLE, events, ttl, sendTimeout)
    requires var w := Run(IDLE, events, ttl); Inv(w, ttl) && Told(w, events, ttl) && Timely(w, e.at, sendTimeout)
    ensures Told(Step(Run(IDLE, events, ttl), e, ttl), events + [e], ttl)
  {
    var w := Run(IDLE, events, ttl);
    var v, all := Step(w, e, ttl), events + [e];
    assert v.clock == e.at;
    hide Run, Possible, Step;
    forall key | key in v.entries && !v.entries[key].inFlight
      ensures exists k :: CommitsAt(all, k, ttl, key) && v.entries[key] == EntryAt(all, k, ttl, key)
    {
      var k := LastCommit(events, e, ttl, key);
    }
    forall key | key in v.entries && v.entries[key].inFlight ensures SentUnder(v, key) {
      FlightsTold(w, events, e, ttl, key);
    }
    forall k, key | CommitsAt(all, k, ttl, key) && v.clock <= all[k].at + ttl
      ensures key in v.entries && v.entries[key] == EntryAt(all, k, ttl, key)
    {
      KeptTold(w, events, e, ttl, sendTimeout, k, key);
    }
  }

  ghost predicate SentUnder(w: World, key: string) { exists i :: i in w.sending && w.sending[i].key == key }

  lemma FlightsTold(w: World, events: seq<Event>, e: Event, ttl: nat, key: string)
    requires Inv(w, ttl) && Told(w, events, ttl)
    requires var v := Step(w, e, ttl); key in v.entries && v.entries[key].inFlight
    ensures SentUnder(Step(w, e, ttl), key)
  {
    hide CommitsAt;
    var v := Step(w, e, ttl);
    if key in w.entries && w.entries[key].inFlight {
      assert SentUnder(w, key);
      var i :| i in w.sending && w.sending[i].key == key;
      assert i in v.sending && v.sending[i].key == key;
    } else {
      assert w.next in v.sending && v.sending[w.next].key == key;
    }
  }

  lemma KeptTold(w: World, events: seq<Event>, e: Event, ttl: nat, sendTimeout: int, k: int, key: string)
    requires w == Run(IDLE, events, ttl) && Inv(w, ttl) && Told(w, events, ttl) && Timely(w, e.at, sendTimeout)
    requires CommitsAt(events + [e], k, ttl, key) && e.at <= (events + [e])[k].at + ttl
    ensures var v := Step(w, e, ttl);
      key in v.entries && v.entries[key] == EntryAt(events + [e], k, ttl, key)
  {
    hide Run;
    CommitsNow(events, e, ttl, key);
    if k < |events| { CommitsEarlier(events, e, ttl, k, key); }
    hide CommitsAt;
  }

  lemma {:induction false} RunTold(events: seq<Event>, ttl: nat, sendTimeout: nat)
    requires sendTimeout <= ttl && Possible(IDLE, events, ttl, sendTimeout)
    ensures Inv(Run(IDLE, events, ttl), ttl) && Told(Run(IDLE, events, ttl), events, ttl)
  {
    if events != [] {
      var front, e := events[..|events| - 1], events[|events| - 1];
      assert events == front + [e];
      PossibleOneMore(IDLE, front, e, ttl, sendTimeout);
      RunOneMore(IDLE, front, e, ttl);
      RunTold(front, ttl, sendTimeout);
      StepTold(front, e, ttl, sendTimeout);
      StepInv(Run(IDLE, front, ttl), e, ttl, sendTimeout);
    }
  }

  /**
    What a delivery is answered after any run, told from the events alone. While a send under its
    key is under way, the same content is told so and other content conflicts. For a lifetime
    after a send under its key returned with a message, the same content is answered with that
    message and other content conflicts. In every other case it is sent: a failed send frees its
    key at once, and so does the end of a lifetime.
  */
  lemma DeliveryIsAnsweredByItsHistory(events: seq<Event>, ttl: nat, sendTimeout: nat, key: string,
                                       fingerprint: string, at: int)
    requires sendTimeout <= ttl && Possible(IDLE, events, ttl, sendTimeout)
    requires Timely(Run(IDLE, events, ttl), at, sendTimeout)
    ensures var w := Run(IDLE, events, ttl);
      var verdict := Reserve(w.entries, ttl, key, fingerprint, at).verdict;
      && (forall i :: i in w.sending && w.sending[i].key == key ==>
            verdict == if fingerprint == w.sending[i].fingerprint then InFlight else Conflict)
      && (forall k :: CommitsAt(events, k, ttl, key) && at <= events[k].at + ttl ==>
            verdict == if fingerprint == EntryAt(events, k, ttl, key).fingerprint
                       then Duplicate(events[k].messageId.value) else Conflict)
      && (verdict == Fresh <==>
            && (forall i :: i in w.sending ==> w.sending[i].key != key)
            && (forall k :: CommitsAt(events, k, ttl, key) ==> events[k].at + ttl < at))
  {
    RunTold(events, ttl, sendTimeout);
    AnsweredByHistory(events, ttl, sendTimeout, key, fingerprint, at);
  }

  lemma AnsweredByHistory(events: seq<Event>, ttl: nat, sendTimeout: nat, key: string, fingerprint: string, at: int)
    requires sendTimeout <= ttl
    requires var w := Run(IDLE, events, ttl); Inv(w, ttl) && Told(w, events, ttl) && Timely(w, at, sendTimeout)
    ensures var w := Run(IDLE, events, ttl);
      var verdict := Reserve(w.entries, ttl, key, fingerprint, at).verdict;
      && (forall i :: i in w.sending && w.sending[i].key == key ==>
            verdict == if fingerprint == w.sending[i].fingerprint then InFlight else Conflict)
      && (forall k :: CommitsAt(events, k, ttl, key) && at <= events[k].at + ttl ==>
            verdict == if fingerprint == EntryAt(events, k, ttl, key).fingerprint
                       then Duplicate(events[k].messageId.value) else Conflict)
      && (verdict == Fresh <==>
            && (forall i :: i in w.sending ==> w.sending[i].key != key)
            && (forall k :: CommitsAt(events, k, ttl, key) ==> events[k].at + ttl < at))
  {
    hide Run;
    var w := Run(IDLE, events, ttl);
    if key in w.entries && at <= w.entries[key].expiresAt && !w.entries[key].inFlight {
      var k :| CommitsAt(events, k, ttl, key) && w.entries[key] == EntryAt(events, k, ttl, key);
      assert w.entries[key].expiresAt == events[k].at + ttl;
    }
  }
}

/** The in-memory store, and the delivery path through it. */
module DedupeStore {
  import opened Options
  import opened Dedupe
  import opened DedupeKeys

  class MemoryStore {
    const ttl: int
    var entries: Entries

    constructor (ttl: int)
      ensures entries == map[] && this.ttl == ttl
    {
      this.ttl, entries := ttl, map[];
    }

    method Reserve(source: string, key: string, fingerprint: string, now: int) returns (verdict: Verdict)
      modifies this
      ensures Reservation(entries, verdict) == Dedupe.Reserve(old(entries), ttl, FullKey(source, key), fingerprint, now)
    {
      var fullKey := FullKey(source, key);
      if fullKey in entries {
        var existing := entries[fullKey];
        if now > existing.expiresAt {
          entries := entries - {fullKey};
        } else if existing.fingerprint != fingerprint {
          return Conflict;
        } else if existing.inFlight {
          return InFlight;
        } else {
          return Duplicate(existing.messageId);
        }
      }
      entries := entries[fullKey := Entry(fingerprint, "", true, now + ttl)];
      return Fresh;
    }

    method Commit(source: string, key: string, messageId: string, now: int)
      modifies this
      ensures entries == Dedupe.Commit(old(entries), ttl, FullKey(source, key), messageId, now)
    {
      var fullKey := FullKey(source, key);
      if fullKey in entries {
        var existing := entries[fullKey].(messageId := messageId, inFlight := false, expiresAt := now + ttl);
        entries := entries[fullKey := existing];
      }
    }

    method Abort(source: string, key: string)
      modifies this
      ensures entries == Dedupe.Abort(old(entries), FullKey(source, key))
    {
      entries := entries - {FullKey(source, key)};
    }

    /**
      One delivery with nothing interleaved: what Feishu did with the send is given, and `sent`
      says whether it was asked. Without deduplication the store is left alone.
    */
    method Deliver(source: string, key: string, fingerprint: string, deduped: bool, feishu: Option<string>, now: int,
                   later: int)
      returns (verdict: Verdict, messageId: Option<string>, sent: bool)
      modifies this
      ensures sent == (verdict == Fresh)
      ensures messageId == if sent then feishu else if verdict.Duplicate? then Some(verdict.messageId) else None
      ensures !deduped ==> verdict == Fresh && entries == old(entries)
      ensures deduped ==>
                var r := Dedupe.Reserve(old(entries), ttl, FullKey(source, key), fingerprint, now);
                && verdict == r.verdict
                && entries == if !sent then r.entries
                              else if feishu.Some? then
                                Dedupe.Commit(r.entries, ttl, FullKey(source, key), feishu.value, later)
                              else Dedupe.Abort(r.entries, FullKey(source, key))
    {
      verdict := Fresh;
      if deduped {
        verdict := Reserve(source, key, fingerprint, now);
        match verdict {
          case Conflict => return verdict, None, false;
          case InFlight => return verdict, None, false;
          case Duplicate(id) => return verdict, Some(id), false;
          case Fresh =>
        }
      }
      if feishu.None? {
        if deduped { Abort(source, key); }
        return verdict, None, true;
      }
      if deduped { Commit(source, key, feishu.value, later); }
      return verdict, feishu, true;
    }
  }
}
