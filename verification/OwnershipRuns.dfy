/**
  Message ownership over whole runs of the daemon: puts, lookups, failed writes, dead processes,
  power losses and restarts. Times are milliseconds; expiry is kept in whole seconds.
*/
module OwnershipRuns {
  import opened Options
  import opened Ownership
  import opened OwnershipDisk

  function Unix(ms: int): int { ms / 1000 }

  /** `past` lists every map the memory ever set out to persist; a daemon that is down has no memory. */
  datatype World = World(up: bool, owners: Owners, disk: Disk, clock: int, past: seq<Owners>)

  datatype Event =
    | Put(messageRef: string, provider: string, at: int, stop: Stop)
    | Lookup(messageRef: string, at: int, stop: Stop)
    | Kill(at: int)
    | PowerCut(at: int, loss: Loss)
    | Restart(at: int)

  ghost function Persist(w: World, owners: Owners, stop: Stop, at: int, size: Size): World {
    World(!stop.Dies?, if stop.Dies? then map[] else owners, Replace(w.disk, Snapshot(owners), size, stop), at,
          w.past + [owners])
  }

  /** Start from whatever file is there; one that does not load keeps the daemon down. */
  function Start(w: World, at: int, size: Size): World {
    if w.disk.target.None? then w.(up := true, owners := map[], clock := at)
    else
      match Load(w.disk.target.value, size)
      case None => w.(up := false, owners := map[], clock := at)
      case Some(owners) => w.(up := true, owners := owners, clock := at)
  }

  predicate Expired(w: World, messageRef: string, at: int) {
    messageRef in w.owners && Unix(at) >= w.owners[messageRef].expiresAt
  }

  function Answer(w: World, messageRef: string, at: int): Option<string> {
    if messageRef in w.owners && Unix(at) < w.owners[messageRef].expiresAt
    then Some(w.owners[messageRef].provider)
    else None
  }

  ghost function Step(w: World, e: Event, ttl: int, size: Size): World {
    match e
    case Put(messageRef, provider, at, stop) =>
      if !w.up || messageRef == "" || provider == "" then w.(clock := at)
      else Persist(w, w.owners[messageRef := Owner(provider, Unix(at + ttl))], stop, at, size)
    case Lookup(messageRef, at, stop) =>
      if w.up && Expired(w, messageRef, at) then Persist(w, w.owners - {messageRef}, stop, at, size)
      else w.(clock := at)
    case Kill(at) => w.(up := false, owners := map[], clock := at)
    case PowerCut(at, loss) => w.(up := false, owners := map[], disk := LosePower(w.disk, loss), clock := at)
    case Restart(at) => Start(w, at, size)
  }

  ghost function Run(w: World, events: seq<Event>, ttl: int, size: Size): World
    decreases |events|
  {
    if events == [] then w else Run(Step(w, events[0], ttl, size), events[1..], ttl, size)
  }

  ghost predicate Timely(w: World, events: seq<Event>, ttl: int, size: Size)
    decreases |events|
  {
    events == [] || (w.clock <= events[0].at && Timely(Step(w, events[0], ttl, size), events[1..], ttl, size))
  }

  /** A daemon started over an empty state directory. */
  function Installed(clock: int): World { World(true, map[], Disk(None, None, None), clock, []) }

  // ---------------------------------------------------------------- whatever fails

  ghost predicate Remembered(items: seq<Item>, past: seq<Owners>, n: nat) { n < |past| && SnapshotOf(items, past[n]) }

  ghost predicate FromThePast(f: Option<File>, past: seq<Owners>) {
    f.Some? ==> exists n: nat :: Remembered(f.value.items, past, n)
  }

  ghost predicate AllValid(maps: seq<Owners>) { forall n :: 0 <= n < |maps| ==> ValidOwners(maps[n]) }

  ghost predicate Sound(w: World, size: Size) {
    && Safe(w.disk, size) && FromThePast(w.disk.target, w.past) && FromThePast(w.disk.settled, w.past)
    && ValidOwners(w.owners) && AllValid(w.past)
  }

  lemma PastGrows(f: Option<File>, past: seq<Owners>, owners: Owners)
    requires FromThePast(f, past)
    ensures FromThePast(f, past + [owners])
  {
    if f.Some? {
      var n: nat :| Remembered(f.value.items, past, n);
      assert Remembered(f.value.items, past + [owners], n);
    }
  }

  lemma PersistIsSound(w: World, owners: Owners, stop: Stop, at: int, size: Size)
    requires Sound(w, size) && ValidOwners(owners)
    ensures Sound(Persist(w, owners, stop, at, size), size)
  {
    hide Replace, SnapshotOf;
    ReplacementIsAtomic(w.disk, Snapshot(owners), size, stop);
    PastGrows(w.disk.target, w.past, owners);
    PastGrows(w.disk.settled, w.past, owners);
    assert Remembered(Snapshot(owners), w.past + [owners], |w.past|);
  }

  lemma StartIsSound(w: World, at: int, size: Size)
    requires Sound(w, size)
    ensures Sound(Start(w, at, size), size)
    ensures Start(w, at, size).up <==> w.disk.target.None? || size(w.disk.target.value.items) <= MAX_FILE
  {
    if w.disk.target.Some? {
      var n: nat :| Remembered(w.disk.target.value.items, w.past, n);
      LoadRebuildsIff(w.past[n], w.disk.target.value, size);
    }
  }

  lemma StepIsSound(w: World, e: Event, ttl: int, size: Size)
    requires Sound(w, size) && w.clock <= e.at && Unix(w.clock + ttl) > 0
    ensures Sound(Step(w, e, ttl, size), size) && w.clock <= Step(w, e, ttl, size).clock
  {
    match e
    case Put(messageRef, provider, at, stop) =>
      if w.up && messageRef != "" && provider != "" {
        PersistIsSound(w, w.owners[messageRef := Owner(provider, Unix(at + ttl))], stop, at, size);
      }
    case Lookup(messageRef, at, stop) => PersistIsSound(w, w.owners - {messageRef}, stop, at, size);
    case Kill(at) =>
    case PowerCut(at, loss) => PowerLossTearsNothing(w.disk, loss, size);
    case Restart(at) => StartIsSound(w, at, size);
  }

  lemma {:induction false} RunIsSound(w: World, events: seq<Event>, ttl: int, size: Size)
    requires Sound(w, size) && Timely(w, events, ttl, size) && Unix(w.clock + ttl) > 0
    ensures Sound(Run(w, events, ttl, size), size)
    decreases |events|
  {
    if events != [] {
      StepIsSound(w, events[0], ttl, size);
      hide Step, Sound;
      RunIsSound(Step(w, events[0], ttl, size), events[1..], ttl, size);
    }
  }

  /**
    Whatever writes fail, wherever the process dies or the power goes, over any run: the file
    under its name is complete, it is the snapshot of a map the memory once held, and nothing of
    it can be lost any more.
  */
  lemma FileIsAWholePastMap(clock: int, events: seq<Event>, ttl: int, size: Size)
    requires Timely(Installed(clock), events, ttl, size) && Unix(clock + ttl) > 0
    ensures var v := Run(Installed(clock), events, ttl, size);
      v.disk.target.Some? ==>
        && Whole(v.disk.target.value, size) && Durable(v.disk.target, size)
        && exists n: nat :: Remembered(v.disk.target.value.items, v.past, n)
  {
    RunIsSound(Installed(clock), events, ttl, size);
  }

  /** After any run at all a restart comes up iff there is no file or the file is within the read limit. */
  lemma RestartComesUpIff(clock: int, events: seq<Event>, ttl: int, size: Size, at: int)
    requires Timely(Installed(clock), events, ttl, size) && Unix(clock + ttl) > 0
    ensures var v := Run(Installed(clock), events, ttl, size);
      Start(v, at, size).up <==> v.disk.target.None? || size(v.disk.target.value.items) <= 8388608
  {
    RunIsSound(Installed(clock), events, ttl, size);
    StartIsSound(Run(Installed(clock), events, ttl, size), at, size);
  }

  // ---------------------------------------------------------------- while every write goes through

  /** Every replacement that was begun went through; processes may still die and power fail in between. */
  predicate Smooth(e: Event) { (e.Put? || e.Lookup? ==> e.stop.Completes?) }

  /** The file says what the memory said last, and a power loss cannot take it back. */
  ghost predicate Mirrors(w: World, last: Owners, size: Size) {
    && w.disk.settled == w.disk.target && Safe(w.disk, size)
    && (if w.disk.target.Some? then SnapshotOf(w.disk.target.value.items, last) else last == map[])
    && (w.up ==> w.owners == last)
  }

  /** What the memory said last after one more event. */
  function Next(last: Owners, w: World, e: Event, ttl: int): Owners {
    match e
    case Put(messageRef, provider, at, _) =>
      if w.up && messageRef != "" && provider != "" then last[messageRef := Owner(provider, Unix(at + ttl))] else last
    case Lookup(messageRef, at, _) => if w.up && Expired(w, messageRef, at) then last - {messageRef} else last
    case _ => last
  }

  lemma StepMirrors(w: World, e: Event, last: Owners, ttl: int, size: Size)
    requires Mirrors(w, last, size) && Smooth(e)
    ensures Mirrors(Step(w, e, ttl, size), Next(last, w, e, ttl), size)
  {
    hide Replace, SnapshotOf;
    match e
    case Put(_, _, _, stop) => ReplacementIsAtomic(w.disk, Snapshot(Next(last, w, e, ttl)), size, stop);
    case Lookup(_, _, stop) => ReplacementIsAtomic(w.disk, Snapshot(Next(last, w, e, ttl)), size, stop);
    case Kill(_) =>
    case PowerCut(_, loss) => PowerLossTearsNothing(w.disk, loss, size);
    case Restart(_) =>
      if w.disk.target.Some? { LoadRebuildsIff(last, w.disk.target.value, size); }
  }

  lemma {:induction false} RunMirrors(w: World, events: seq<Event>, last: Owners, ttl: int, size: Size)
    returns (now: Owners)
    requires Mirrors(w, last, size) && forall i :: 0 <= i < |events| ==> Smooth(events[i])
    ensures Mirrors(Run(w, events, ttl, size), now, size)
    decreases |events|
  {
    now := last;
    if events != [] {
      StepMirrors(w, events[0], last, ttl, size);
      hide Step, Mirrors;
      now := RunMirrors(Step(w, events[0], ttl, size), events[1..], Next(last, w, events[0], ttl), ttl, size);
    }
  }

  /**
    With every write successful, and processes and power failing in between at will, a restart of
    a running daemon changes nothing at all iff the file is within the read limit; over the limit
    the daemon does not come up again.
  */
  lemma RestartIsInvisibleIff(clock: int, events: seq<Event>, ttl: int, size: Size, at: int)
    requires Timely(Installed(clock), events, ttl, size) && Unix(clock + ttl) > 0
    requires forall i :: 0 <= i < |events| ==> Smooth(events[i])
    requires Run(Installed(clock), events, ttl, size).up
    ensures var v := Run(Installed(clock), events, ttl, size);
      && (Start(v, at, size) == v.(clock := at) <==> v.disk.target.None? || size(v.disk.target.value.items) <= 8388608)
      && (v.disk.target.Some? ==> v.disk.target.value.items == Snapshot(v.owners))
      && (v.disk.target.Some? && size(Snapshot(v.owners)) > 8388608 ==> !Start(v, at, size).up)
  {
    var v := Run(Installed(clock), events, ttl, size);
    RunIsSound(Installed(clock), events, ttl, size);
    var last := RunMirrors(Installed(clock), events, map[], ttl, size);
    if v.disk.target.Some? {
      LoadRebuildsIff(last, v.disk.target.value, size);
      SnapshotIsCanonical(v.disk.target.value.items, Snapshot(last), last);
    }
    hide Load, SnapshotOf, Run;
  }

  predicate SameAuthor(last: Owners, messageRef: string, owner: Owner, clock: int) {
    if messageRef in last then last[messageRef] == owner else Unix(clock) >= owner.expiresAt
  }

  /**
    From a put until it expires, through any other puts, lookups, deaths, power losses and
    restarts, a daemon that is up answers the message with its author, unless it is put again;
    from then on with nobody.
  */
  lemma {:induction false} AuthorIsRememberedUntilExpiry(w: World, events: seq<Event>, last: Owners, ttl: int,
                                                         size: Size, messageRef: string, owner: Owner)
    requires Mirrors(w, last, size) && SameAuthor(last, messageRef, owner, w.clock) && Timely(w, events, ttl, size)
    requires forall i :: 0 <= i < |events| ==>
      Smooth(events[i]) && !(events[i].Put? && events[i].messageRef == messageRef)
    ensures var v := Run(w, events, ttl, size);
      v.up ==> forall at :: v.clock <= at ==>
        Answer(v, messageRef, at) == if Unix(at) < owner.expiresAt then Some(owner.provider) else None
    decreases |events|
  {
    if events != [] {
      var e, v := events[0], Step(w, events[0], ttl, size);
      assert Smooth(e) && !(e.Put? && e.messageRef == messageRef);
      StepMirrors(w, e, last, ttl, size);
      assert v.clock == e.at;
      assert SameAuthor(Next(last, w, e, ttl), messageRef, owner, v.clock);
      hide Step, Mirrors, Next;
      AuthorIsRememberedUntilExpiry(v, events[1..], Next(last, w, e, ttl), ttl, size, messageRef, owner);
    }
  }

  lemma {:induction false} RunBoth(w: World, a: seq<Event>, b: seq<Event>, ttl: int, size: Size)
    ensures Run(w, a + b, ttl, size) == Run(Run(w, a, ttl, size), b, ttl, size)
    ensures Timely(w, a + b, ttl, size) ==> Timely(w, a, ttl, size) && Timely(Run(w, a, ttl, size), b, ttl, size)
    decreases |a|
  {
    hide Step;
    if a == [] {
      assert a + b == b;
    } else {
      assert (a + b)[1..] == a[1..] + b && (a + b)[0] == a[0];
      RunBoth(Step(w, a[0], ttl, size), a[1..], b, ttl, size);
    }
  }

  lemma InstalledMirrors(clock: int, size: Size)
    ensures Mirrors(Installed(clock), map[], size)
  {
  }

  lemma PutIsKept(w: World, messageRef: string, provider: string, at: int, stop: Stop, last: Owners,
                  ttl: int, size: Size)
    requires w.up && Mirrors(w, last, size) && messageRef != "" && provider != "" && stop.Completes?
    ensures var e := Put(messageRef, provider, at, stop);
      && Mirrors(Step(w, e, ttl, size), Next(last, w, e, ttl), size)
      && SameAuthor(Next(last, w, e, ttl), messageRef, Owner(provider, (at + ttl) / 1000), Step(w, e, ttl, size).clock)
      && Step(w, e, ttl, size).clock == at
  {
    StepMirrors(w, Put(messageRef, provider, at, stop), last, ttl, size);
    hide Mirrors, Replace;
  }

  /**
    Over any run whose replacements all complete, with deaths, power losses and restarts at will: a
    message is answered with the provider of its last put until the lifetime of that put is over,
    counted in whole seconds, and with nobody from then on.
  */
  lemma LastPutIsAnswered(clock: int, before: seq<Event>, messageRef: string, provider: string, put: int, stop: Stop,
                          after: seq<Event>, ttl: int, size: Size, at: int)
    requires messageRef != "" && provider != "" && stop.Completes?
    requires Timely(Installed(clock), before + [Put(messageRef, provider, put, stop)] + after, ttl, size)
    requires forall i :: 0 <= i < |before| ==> Smooth(before[i])
    requires forall i :: 0 <= i < |after| ==>
      Smooth(after[i]) && !(after[i].Put? && after[i].messageRef == messageRef)
    requires Run(Installed(clock), before, ttl, size).up
    ensures var v := Run(Installed(clock), before + [Put(messageRef, provider, put, stop)] + after, ttl, size);
      v.up && v.clock <= at ==>
        Answer(v, messageRef, at) == if at / 1000 < (put + ttl) / 1000 then Some(provider) else None
  {
    var e := Put(messageRef, provider, put, stop);
    var w := Run(Installed(clock), before, ttl, size);
    InstalledMirrors(clock, size);
    var last := RunMirrors(Installed(clock), before, map[], ttl, size);
    PutIsKept(w, messageRef, provider, put, stop, last, ttl, size);
    RunBoth(Installed(clock), before + [e], after, ttl, size);
    RunBoth(Installed(clock), before, [e], ttl, size);
    assert [e][1..] == [] && Run(w, [e], ttl, size) == Run(Step(w, e, ttl, size), [], ttl, size);
    hide Mirrors, SameAuthor, Step, Next, Answer;
    AuthorIsRememberedUntilExpiry(Step(w, e, ttl, size), after, Next(last, w, e, ttl), ttl, size, messageRef,
                                  Owner(provider, (put + ttl) / 1000));
  }

  /** A message that was never put is answered with nobody. */
  lemma NeverPutIsNobody(clock: int, events: seq<Event>, messageRef: string, ttl: int, size: Size, at: int)
    requires Timely(Installed(clock), events, ttl, size)
    requires forall i :: 0 <= i < |events| ==>
      Smooth(events[i]) && !(events[i].Put? && events[i].messageRef == messageRef)
    ensures var v := Run(Installed(clock), events, ttl, size);
      v.up && v.clock <= at ==> Answer(v, messageRef, at) == None
  {
    InstalledMirrors(clock, size);
    ClockMovesOn(Installed(clock), events, ttl, size);
    AuthorIsRememberedUntilExpiry(Installed(clock), events, map[], ttl, size, messageRef, Owner("", Unix(clock)));
    hide Mirrors;
  }

  lemma {:induction false} ClockMovesOn(w: World, events: seq<Event>, ttl: int, size: Size)
    requires Timely(w, events, ttl, size)
    ensures w.clock <= Run(w, events, ttl, size).clock
    decreases |events|
  {
    if events != [] {
      assert Step(w, events[0], ttl, size).clock == events[0].at;
      hide Step;
      ClockMovesOn(Step(w, events[0], ttl, size), events[1..], ttl, size);
    }
  }

  // ---------------------------------------------------------------- past the read limit

  /** Every valid item takes at least the bytes of its field names and of one character per field. */
  const MIN_ITEM := 54

  ghost predicate Encodes(size: Size) {
    forall items :: Ownership.AllValid(items) ==> size(items) >= MIN_ITEM * |items|
  }

  predicate DistinctRefs(refs: seq<string>) {
    (forall i :: 0 <= i < |refs| ==> refs[i] != "") && (forall i, j :: 0 <= i < j < |refs| ==> refs[i] != refs[j])
  }

  /** One successful put after the other. */
  function Puts(refs: seq<string>, provider: string, at: int): seq<Event> {
    seq(|refs|, i requires 0 <= i < |refs| => Put(refs[i], provider, at, Completes([])))
  }

  lemma PutAccumulates(w: World, messageRef: string, provider: string, at: int, last: Owners, ttl: int, size: Size)
    requires w.up && Mirrors(w, last, size) && messageRef != "" && provider != "" && messageRef !in last
    ensures var e := Put(messageRef, provider, at, Completes([])); var v := Step(w, e, ttl, size);
      var next := Next(last, w, e, ttl);
      && Mirrors(v, next, size) && next.Keys == last.Keys + {messageRef} && v.owners == next
      && v.up && v.clock == at && v.disk.target.Some?
  {
    var e := Put(messageRef, provider, at, Completes([]));
    StepMirrors(w, e, last, ttl, size);
    hide Replace, SnapshotOf;
    ReplacementIsAtomic(w.disk, Snapshot(Next(last, w, e, ttl)), size, e.stop);
  }

  lemma RestAreNew(refs: seq<string>, last: Owners, next: Owners)
    requires refs != [] && DistinctRefs(refs) && next.Keys == last.Keys + {refs[0]}
    requires forall i :: 0 <= i < |refs| ==> refs[i] !in last
    ensures DistinctRefs(refs[1..]) && |next.Keys| == |last.Keys| + 1
    ensures forall i :: 0 <= i < |refs[1..]| ==> refs[1..][i] !in next
  {
    forall i | 0 <= i < |refs[1..]| ensures refs[1..][i] !in next {
      assert refs[1..][i] == refs[i + 1] && refs[i + 1] != refs[0];
    }
  }

  lemma {:induction false} PutsAccumulate(w: World, refs: seq<string>, provider: string, at: int, last: Owners,
                                          ttl: int, size: Size)
    requires w.up && Mirrors(w, last, size) && DistinctRefs(refs) && provider != "" && w.clock <= at
    requires forall i :: 0 <= i < |refs| ==> refs[i] !in last
    ensures var v := Run(w, Puts(refs, provider, at), ttl, size);
      && v.up && |v.owners.Keys| == |last.Keys| + |refs| && Timely(w, Puts(refs, provider, at), ttl, size)
      && (refs != [] ==> v.disk.target.Some?)
    decreases |refs|
  {
    assert w.owners == last;
    hide Step, Mirrors, Next;
    if refs != [] {
      var events := Puts(refs, provider, at);
      var e := events[0];
      var v := Step(w, e, ttl, size);
      var next := Next(last, w, e, ttl);
      PutAccumulates(w, refs[0], provider, at, last, ttl, size);
      assert events[1..] == Puts(refs[1..], provider, at);
      RestAreNew(refs, last, next);
      PutsAccumulate(v, refs[1..], provider, at, next, ttl, size);
    }
  }

  lemma OwnersAreValid(clock: int, events: seq<Event>, ttl: int, size: Size)
    requires Timely(Installed(clock), events, ttl, size) && Unix(clock + ttl) > 0
    ensures ValidOwners(Run(Installed(clock), events, ttl, size).owners)
  {
    RunIsSound(Installed(clock), events, ttl, size);
  }

  lemma TooLong(owners: Owners, size: Size)
    requires ValidOwners(owners) && Encodes(size) && MIN_ITEM * |owners.Keys| > MAX_FILE
    ensures size(Snapshot(owners)) > MAX_FILE
  {
    SnapshotIsValid(owners);
    SnapshotCount(owners);
  }

  /**
    Enough puts of different messages, every one of them successful, write a file the daemon
    cannot start from: expired owners leave the map only when their own message is looked up.
  */
  lemma PutsAloneCanPreventARestart(refs: seq<string>, provider: string, clock: int, ttl: int, size: Size, at: int)
    requires DistinctRefs(refs) && provider != "" && Encodes(size) && Unix(clock + ttl) > 0
    requires MIN_ITEM * |refs| > MAX_FILE
    ensures var v := Run(Installed(clock), Puts(refs, provider, clock), ttl, size);
      v.up && !Start(v, at, size).up
  {
    hide Run, Start, Timely, ValidOwners, Encodes, DistinctRefs;
    var events := Puts(refs, provider, clock);
    PutsAccumulate(Installed(clock), refs, provider, clock, map[], ttl, size);
    OwnersAreValid(clock, events, ttl, size);
    TooLong(Run(Installed(clock), events, ttl, size).owners, size);
    RestartIsInvisibleIff(clock, events, ttl, size, at);
  }

  /** As many different references as asked for. */
  function References(n: nat): (refs: seq<string>)
    ensures |refs| == n && DistinctRefs(refs)
  {
    var refs := seq(n, i requires 0 <= i < n => seq(i + 1, _ => 'm'));
    assert forall i :: 0 <= i < n ==> |refs[i]| == i + 1;
    refs
  }

  /** 155345 messages are enough. */
  lemma SomePutsPreventARestart(provider: string, ttl: int, size: Size)
    requires provider != "" && Encodes(size) && ttl >= 1000
    ensures !Start(Run(Installed(0), Puts(References(155345), provider, 0), ttl, size), 0, size).up
  {
    hide References, Run, Start, Puts, Encodes;
    PutsAloneCanPreventARestart(References(155345), provider, 0, ttl, size, 0);
  }
}
