/**
  The bounded walk through a thread's history, newest message first, that finds the triggering
  message and collects what precedes it. History arrives in pages; entries may be nil.
*/
module HistoryScan {
  import opened Options

  const MAX_SCAN := 256
  const MAX_PRIOR := 64

  /** A history message: what it says, holds and where it came from has been parsed already. */
  datatype Message<M> = Message(id: string, createdAt: int, content: M)

  type Item<M> = Option<Message<M>>

  datatype Candidate<M> = Candidate(message: Message<M>, isTrigger: bool)

  /** One answer to a list call: `token` says whether it names a further page. */
  datatype Answer<M> = Failed | Page(items: seq<Item<M>>, hasMore: bool, token: bool)

  datatype Ending = Whole | MessageLimit | ScanLimit | Unreadable {
    predicate Truncated() { MessageLimit? || ScanLimit? }
    predicate HistoryUnreadable() { ScanLimit? || Unreadable? }
    predicate Typed() { !Whole? }
  }

  datatype Snapshot<M> = Snapshot(candidates: seq<Candidate<M>>, ending: Ending)

  // ---------------------------------------------------------------- the flat reading

  function Take<T>(s: seq<T>, n: nat): seq<T> { if |s| <= n then s else s[..n] }

  function Messages<M>(items: seq<Item<M>>): seq<Message<M>> {
    if items == [] then []
    else if items[0].None? then Messages(items[1..])
    else [items[0].value] + Messages(items[1..])
  }

  predicate IsTrigger<M>(item: Item<M>, id: string) { item.Some? && item.value.id == id }

  /** Position of the newest message with the trigger's id, or the length of the history. */
  function TriggerAt<M>(items: seq<Item<M>>, id: string): (t: nat)
    ensures t <= |items|
    ensures t < |items| ==> IsTrigger(items[t], id)
    ensures forall i :: 0 <= i < t ==> !IsTrigger(items[i], id)
  {
    if items == [] then 0
    else if IsTrigger(items[0], id) then 0
    else 1 + TriggerAt(items[1..], id)
  }

  function Priors<M>(messages: seq<Message<M>>): (c: seq<Candidate<M>>)
    ensures |c| == |messages| && forall i :: 0 <= i < |c| ==> c[i] == Candidate(messages[i], false)
  {
    seq(|messages|, i requires 0 <= i < |messages| => Candidate(messages[i], false))
  }

  /** The trigger and every message older than it; nothing if the trigger is not there. */
  function Collect<M>(items: seq<Item<M>>, id: string): seq<Candidate<M>> {
    var t := TriggerAt(items, id);
    if t == |items| then [] else [Candidate(items[t].value, true)] + Priors(Messages(items[t + 1..]))
  }

  /**
    The answer that decides how the walk can end: the first that failed, was the last page, or named
    no further one.
  */
  function Deciding<M>(answers: seq<Answer<M>>): (d: nat)
    ensures d <= |answers|
    ensures forall i :: 0 <= i < d ==> answers[i].Page? && answers[i].hasMore && answers[i].token
    ensures d < |answers| ==> !(answers[d].Page? && answers[d].hasMore && answers[d].token)
  {
    if answers == [] || answers[0].Failed? || !answers[0].hasMore || !answers[0].token then 0
    else 1 + Deciding(answers[1..])
  }

  function Items<M>(answers: seq<Answer<M>>): seq<Item<M>> {
    if answers == [] then []
    else (if answers[0].Page? then answers[0].items else []) + Items(answers[1..])
  }

  /** Everything up to and including the deciding answer, where that answer starts, and whether it was the last page. */
  datatype History<M> = History(all: seq<Item<M>>, start: nat, whole: bool)

  function HistoryOf<M>(answers: seq<Answer<M>>): History<M> {
    var d := Deciding(answers);
    History(Items(Take(answers, d + 1)), |Items(answers[..d])|,
            d < |answers| && answers[d].Page? && !answers[d].hasMore)
  }

  /** Whether something remains in the history behind the item at the end of `prefix` of it. */
  function ButTheLast<M>(h: History<M>): seq<Item<M>> {
    if h.whole && h.start < |h.all| then h.all[..|h.all| - 1] else h.all
  }

  /**
    The snapshot as a function of the history alone: the trigger and its first 64 predecessors
    within the first 256 entries, and why reading stopped there.
  */
  function Flat<M>(h: History<M>, id: string): Snapshot<M> {
    Snapshot(
      Take(Collect(Take(h.all, MAX_SCAN), id), MAX_PRIOR + 1),
      if |Collect(Take(ButTheLast(h), MAX_SCAN), id)| > MAX_PRIOR then MessageLimit
      else if h.start >= MAX_SCAN then ScanLimit
      else if h.whole then Whole
      else Unreadable)
  }

  // ---------------------------------------------------------------- lemmas about the flat reading

  lemma {:induction false} MessagesOfMore<M>(items: seq<Item<M>>, item: Item<M>)
    ensures Messages(items + [item]) == if item.None? then Messages(items) else Messages(items) + [item.value]
  {
    if items == [] {
      assert [item][1..] == [];
    } else {
      MessagesOfMore(items[1..], item);
      assert (items + [item])[1..] == items[1..] + [item];
    }
  }

  lemma {:induction false} TriggerOfMore<M>(items: seq<Item<M>>, item: Item<M>, id: string)
    ensures TriggerAt(items + [item], id) ==
            if TriggerAt(items, id) < |items| then TriggerAt(items, id)
            else if IsTrigger(item, id) then |items| else |items| + 1
  {
    if items == [] {
      assert [item][1..] == [];
    } else {
      TriggerOfMore(items[1..], item, id);
      assert (items + [item])[1..] == items[1..] + [item];
    }
  }

  lemma PriorsOfMore<M>(messages: seq<Message<M>>, m: Message<M>)
    ensures Priors(messages + [m]) == Priors(messages) + [Candidate(m, false)]
  {
  }

  lemma CollectedAt<M>(items: seq<Item<M>>, t: nat, id: string)
    requires TriggerAt(items, id) == t < |items|
    ensures items[t].Some? && Collect(items, id) == [Candidate(items[t].value, true)] + Priors(Messages(items[t + 1..]))
  {
    hide TriggerAt, Messages, Priors;
  }

  lemma CollectAfterTheTrigger<M>(items: seq<Item<M>>, item: Item<M>, id: string)
    requires TriggerAt(items, id) < |items|
    ensures Collect(items + [item], id) ==
            if item.None? then Collect(items, id) else Collect(items, id) + [Candidate(item.value, false)]
  {
    hide *;
    var t := TriggerAt(items, id);
    TriggerOfMore(items, item, id);
    CollectedAt(items, t, id);
    CollectedAt(items + [item], t, id);
    assert (items + [item])[t + 1..] == items[t + 1..] + [item];
    MessagesOfMore(items[t + 1..], item);
    if item.Some? { PriorsOfMore(Messages(items[t + 1..]), item.value); }
  }

  lemma CollectUpToTheTrigger<M>(items: seq<Item<M>>, item: Item<M>, id: string)
    requires TriggerAt(items, id) == |items|
    ensures Collect(items, id) == []
    ensures Collect(items + [item], id) == if IsTrigger(item, id) then [Candidate(item.value, true)] else []
  {
    TriggerOfMore(items, item, id);
    hide TriggerAt;
    assert (items + [item])[|items| + 1..] == [];
  }

  /** One more entry: before the trigger only the trigger counts, after it every message does. */
  lemma CollectMore<M>(items: seq<Item<M>>, item: Item<M>, id: string)
    ensures Collect(items + [item], id) ==
            if item.None? then Collect(items, id)
            else if Collect(items, id) != [] then Collect(items, id) + [Candidate(item.value, false)]
            else if item.value.id == id then [Candidate(item.value, true)]
            else []
  {
    if TriggerAt(items, id) < |items| {
      assert Collect(items, id) != [];
      hide Collect;
      CollectAfterTheTrigger(items, item, id);
    } else {
      hide Collect;
      CollectUpToTheTrigger(items, item, id);
    }
  }

  lemma {:induction false} CollectGrows<M>(items: seq<Item<M>>, n: nat, id: string)
    requires n <= |items|
    ensures Collect(items[..n], id) <= Collect(items, id)
    decreases |items| - n
  {
    if n < |items| {
      assert items[..n + 1] == items[..n] + [items[n]];
      CollectMore(items[..n], items[n], id);
      CollectGrows(items, n + 1, id);
    } else {
      assert items[..n] == items;
    }
  }

  lemma {:induction false} ItemsOfMore<M>(answers: seq<Answer<M>>, k: nat)
    requires k < |answers|
    ensures Items(answers[..k + 1]) == Items(answers[..k]) + (if answers[k].Page? then answers[k].items else [])
  {
    if k == 0 {
      assert answers[..1][1..] == [] && answers[..0] == [];
    } else {
      ItemsOfMore(answers[1..], k - 1);
      assert answers[..k + 1][1..] == answers[1..][..k] && answers[..k][1..] == answers[1..][..k - 1];
    }
  }

  lemma {:induction false} ItemsUpTo<M>(answers: seq<Answer<M>>, k: nat, m: nat)
    requires k <= m <= |answers|
    ensures Items(answers[..k]) <= Items(answers[..m])
    decreases m - k
  {
    if k < m {
      ItemsUpTo(answers, k, m - 1);
      ItemsOfMore(answers, m - 1);
    }
  }

  // ---------------------------------------------------------------- what the snapshot is

  predicate NewestFirst<M>(items: seq<Item<M>>) {
    forall i, j :: 0 <= i < j < |items| && items[i].Some? && items[j].Some? ==>
      items[i].value.createdAt >= items[j].value.createdAt
  }

  lemma {:induction false} MessagesAreOlder<M>(items: seq<Item<M>>, time: int)
    requires forall i :: 0 <= i < |items| && items[i].Some? ==> items[i].value.createdAt <= time
    ensures forall m :: m in Messages(items) ==> m.createdAt <= time && Some(m) in items
  {
    if items != [] {
      MessagesAreOlder(items[1..], time);
    }
  }

  lemma OnlyCandidateZeroIsTheTrigger<M>(all: seq<Candidate<M>>, c: seq<Candidate<M>>, trigger: Message<M>,
                                         older: seq<Message<M>>)
    requires c <= all && all == [Candidate(trigger, true)] + Priors(older)
    ensures forall i :: 0 < i < |c| ==> !c[i].isTrigger && c[i].message in older
  {
    forall i | 0 < i < |c| ensures !c[i].isTrigger && c[i].message in older {
      assert c[i] == all[i] == Candidate(older[i - 1], false);
    }
  }

  lemma OlderThanTheTrigger<M>(items: seq<Item<M>>, t: nat)
    requires NewestFirst(items) && t < |items| && items[t].Some?
    ensures forall m :: m in Messages(items[t + 1..]) ==> m.createdAt <= items[t].value.createdAt && Some(m) in items
  {
    var older := items[t + 1..];
    forall i | 0 <= i < |older| && older[i].Some? ensures older[i].value.createdAt <= items[t].value.createdAt {
      assert older[i] == items[t + 1 + i];
    }
    MessagesAreOlder(older, items[t].value.createdAt);
  }

  /** Nothing newer than the trigger is ever in the snapshot, nor is the trigger ever taken for an older message. */
  lemma NothingNewerThanTheTrigger<M>(h: History<M>, id: string)
    requires NewestFirst(h.all)
    ensures var c := Flat(h, id).candidates;
      c != [] ==>
        && c[0].isTrigger && c[0].message.id == id
        && |c| <= 65
        && forall i :: 0 < i < |c| ==>
             !c[i].isTrigger && c[i].message.createdAt <= c[0].message.createdAt && Some(c[i].message) in h.all
  {
    var seen := Take(h.all, MAX_SCAN);
    assert forall x :: x in seen ==> x in h.all;
    assert NewestFirst(seen);
    var t := TriggerAt(seen, id);
    if t < |seen| {
      OlderThanTheTrigger(seen, t);
      var older := Messages(seen[t + 1..]);
      var all, c := Collect(seen, id), Flat(h, id).candidates;
      assert c == Take(all, MAX_PRIOR + 1) && all == [Candidate(seen[t].value, true)] + Priors(older);
      hide *;
      OnlyCandidateZeroIsTheTrigger(all, c, seen[t].value, older);
    }
  }

  /**
    Entries that were never looked at go unreported, no issue and no truncation, exactly when
    the 256th entry lies inside the last page and no 64 predecessors were found before it.
  */
  lemma UnreadEntriesGoUnreportedIff<M>(h: History<M>, id: string)
    requires h.start <= |h.all|
    ensures |h.all| > 256 ==>
      (!Flat(h, id).ending.Typed() <==>
       h.whole && h.start < 256 && |Collect(h.all[..256], id)| <= 64)
  {
    if |h.all| > MAX_SCAN && h.whole && h.start < |h.all| {
      assert Take(ButTheLast(h), MAX_SCAN) == h.all[..MAX_SCAN];
    }
  }

  /** Within the scan limit an untroubled walk has the trigger and all that precedes it. */
  lemma WholeMeansAllPredecessors<M>(h: History<M>, id: string)
    requires |h.all| <= 256 && Flat(h, id).ending.Whole?
    ensures Flat(h, id).candidates == Collect(h.all, id)
  {
    hide Collect;
    assert Take(h.all, MAX_SCAN) == h.all;
    if ButTheLast(h) == h.all {
      assert |Collect(h.all, id)| <= MAX_PRIOR;
    } else {
      var front, last := h.all[..|h.all| - 1], h.all[|h.all| - 1];
      assert h.all == front + [last] && Take(front, MAX_SCAN) == front;
      CollectMore(front, last, id);
      assert |Collect(h.all, id)| <= MAX_PRIOR + 1;
    }
  }

  /** Five pages of fifty and a last one of ten: the trigger, then nothing but nil, then a message nobody reads. */
  function LongQuietThread(trigger: Message<int>, unread: Message<int>): seq<Answer<int>> {
    var first: Answer<int> := Page([Some(trigger)] + seq(49, _ => None), true, true);
    var nils: Answer<int> := Page(seq(50, _ => None), true, true);
    [first, nils, nils, nils, nils, Page(seq(9, _ => None) + [Some(unread)], false, false)]
  }

  lemma LongQuietHistory(trigger: Message<int>, unread: Message<int>)
    ensures var h := HistoryOf(LongQuietThread(trigger, unread));
      && |h.all| == 260 && h.all[0] == Some(trigger) && h.all[259] == Some(unread)
      && h.start == 250 && h.whole && forall i :: 1 <= i < 259 ==> h.all[i] == None
  {
    var answers := LongQuietThread(trigger, unread);
    assert Take(answers, 6) == answers[..6] == answers;
    assert Items(answers[..0]) == [];
    hide Deciding, Items, Take;
    assert Deciding(answers) == 5 by {
      assert answers[5].Page? && !answers[5].hasMore;
    }
    ItemsOfMore(answers, 0);
    ItemsOfMore(answers, 1);
    ItemsOfMore(answers, 2);
    ItemsOfMore(answers, 3);
    ItemsOfMore(answers, 4);
    ItemsOfMore(answers, 5);
  }

  lemma TheScanLimitCanGoUnreported(trigger: Message<int>, unread: Message<int>)
    ensures var h := HistoryOf(LongQuietThread(trigger, unread));
      && |h.all| == 260 && h.all[259] == Some(unread)
      && Flat(h, trigger.id) == Snapshot([Candidate(trigger, true)], Whole)
  {
    hide HistoryOf, LongQuietThread;
    LongQuietHistory(trigger, unread);
    var h := HistoryOf(LongQuietThread(trigger, unread));
    var seen := h.all[..MAX_SCAN];
    assert seen[0] == Some(trigger) && TriggerAt(seen, trigger.id) == 0;
    NoMessages(seen[1..]);
    assert Collect(seen, trigger.id) == [Candidate(trigger, true)];
    UnreadEntriesGoUnreportedIff(h, trigger.id);
  }

  lemma {:induction false} NoMessages<M>(items: seq<Item<M>>)
    requires forall i :: 0 <= i < |items| ==> items[i] == None
    ensures Messages(items) == []
  {
    if items != [] {
      NoMessages(items[1..]);
    }
  }

  // ---------------------------------------------------------------- the paged walk

  /** What the walk has gathered after some entries: all that precede the limit. */
  ghost predicate Gathered<M>(h: History<M>, id: string, scanned: nat, candidates: seq<Candidate<M>>) {
    && scanned <= |h.all| && scanned <= MAX_SCAN
    && candidates == Collect(h.all[..scanned], id)
    && |candidates| <= MAX_PRIOR + 1
  }

  /** Stopping at the 64th predecessor is right as soon as something is known to remain behind it. */
  lemma StopsAtTheLimit<M>(h: History<M>, id: string, scanned: nat, candidates: seq<Candidate<M>>)
    requires Gathered(h, id, scanned, candidates) && |candidates| == MAX_PRIOR + 1
    requires scanned <= |ButTheLast(h)|
    ensures Flat(h, id) == Snapshot(candidates, MessageLimit)
  {
    hide Collect;
    var seen, some := Take(h.all, MAX_SCAN), Take(ButTheLast(h), MAX_SCAN);
    assert seen[..scanned] == h.all[..scanned] == some[..scanned];
    CollectGrows(seen, scanned, id);
    CollectGrows(some, scanned, id);
  }

  /** Stopping anywhere else is right once every entry within the scan limit has been read. */
  lemma StopsAtTheEnd<M>(h: History<M>, id: string, scanned: nat, candidates: seq<Candidate<M>>)
    requires Gathered(h, id, scanned, candidates) && (scanned == |h.all| || scanned == MAX_SCAN)
    requires |candidates| == MAX_PRIOR + 1 ==> scanned == |h.all| > |ButTheLast(h)|
                                               && |Collect(h.all[..|h.all| - 1], id)| <= MAX_PRIOR
    ensures Flat(h, id).candidates == candidates && !Flat(h, id).ending.MessageLimit?
  {
    hide Collect;
    assert Take(h.all, MAX_SCAN) == h.all[..scanned];
    var some := Take(ButTheLast(h), MAX_SCAN);
    if |candidates| <= MAX_PRIOR {
      assert some == h.all[..|some|] && |some| <= scanned;
      assert h.all[..scanned][..|some|] == some;
      CollectGrows(h.all[..scanned], |some|, id);
    } else {
      assert ButTheLast(h) == h.all[..|h.all| - 1] == some;
    }
  }

  /** Where a page that the walk reaches lies in the history, and whether anything is known to follow it. */
  lemma PageInHistory<M>(answers: seq<Answer<M>>, k: nat)
    requires k <= Deciding(answers) && k < |answers| && answers[k].Page?
    ensures var h := HistoryOf(answers); var base := |Items(answers[..k])|; var items := answers[k].items;
      && base + |items| <= |h.all| && h.all[base..base + |items|] == items
      && |Items(answers[..k + 1])| == base + |items|
      && (answers[k].hasMore ==> base + |items| <= |ButTheLast(h)|)
      && (!answers[k].hasMore ==> h.whole && h.start == base && |h.all| == base + |items|)
      && (answers[k].hasMore && !answers[k].token ==> !h.whole && h.start == base && |h.all| == base + |items|)
  {
    var d := Deciding(answers);
    AllUpTo(answers);
    var end := if d < |answers| then d + 1 else d;
    hide Items, Take;
    ItemsOfMore(answers, k);
    ItemsUpTo(answers, k + 1, end);
    var base, items, all := Items(answers[..k]), answers[k].items, HistoryOf(answers).all;
    assert Items(answers[..k + 1]) == base + items && base + items <= all;
    assert all[|base|..|base| + |items|] == items;
    if k < d {
      ItemsUpTo(answers, k + 1, d);
    } else {
      assert answers[..end] == answers[..k + 1];
    }
  }

  lemma AllUpTo<M>(answers: seq<Answer<M>>)
    ensures var d := Deciding(answers); HistoryOf(answers).all == Items(answers[..if d < |answers| then d + 1 else d])
  {
    var d := Deciding(answers);
    assert Take(answers, d + 1) == answers[..if d < |answers| then d + 1 else d];
  }

  /** A failed list call ends the history right there. */
  lemma FailureEndsTheHistory<M>(answers: seq<Answer<M>>)
    requires var d := Deciding(answers); d == |answers| || answers[d].Failed?
    ensures var h := HistoryOf(answers); !h.whole && h.start == |h.all| == |Items(answers[..Deciding(answers)])|
  {
    var d := Deciding(answers);
    if d < |answers| {
      ItemsOfMore(answers, d);
      assert Take(answers, d + 1) == answers[..d + 1];
    } else {
      assert Take(answers, d + 1) == answers == answers[..d];
    }
  }

  /** One page of the walk, item by item, up to the scan limit or the 64th predecessor with something behind it. */
  method ScanPage<M>(ghost h: History<M>, items: seq<Item<M>>, hasMore: bool, id: string, scanned0: nat,
                     candidates0: seq<Candidate<M>>)
    returns (scanned: nat, candidates: seq<Candidate<M>>, limited: bool)
    requires Gathered(h, id, scanned0, candidates0) && |candidates0| <= MAX_PRIOR && scanned0 < MAX_SCAN
    requires scanned0 + |items| <= |h.all| && h.all[scanned0..scanned0 + |items|] == items
    requires hasMore ==> scanned0 + |items| <= |ButTheLast(h)|
    requires !hasMore ==> h.whole && h.start == scanned0 && |h.all| == scanned0 + |items|
    ensures limited ==> Flat(h, id) == Snapshot(candidates, MessageLimit)
    ensures !limited ==>
      && Gathered(h, id, scanned, candidates)
      && (scanned == scanned0 + |items| || scanned == MAX_SCAN <= scanned0 + |items|)
      && (|candidates| == MAX_PRIOR + 1 ==>
            !hasMore && scanned == |h.all| > |ButTheLast(h)| && |Collect(h.all[..|h.all| - 1], id)| <= MAX_PRIOR)
  {
    hide Flat, Collect, HistoryOf;
    scanned, candidates, limited := scanned0, candidates0, false;
    var found, priors := candidates0 != [], if candidates0 == [] then 0 else |candidates0| - 1;
    var itemIndex := 0;
    while itemIndex < |items|
      invariant itemIndex <= |items| && scanned == scanned0 + itemIndex
      invariant Gathered(h, id, scanned, candidates)
      invariant found == (candidates != []) && |candidates| == priors + if found then 1 else 0
      invariant |candidates| == MAX_PRIOR + 1 ==>
                  !hasMore && itemIndex == |items| && items != [] && |Collect(h.all[..|h.all| - 1], id)| <= MAX_PRIOR
    {
      if scanned >= MAX_SCAN { break; }
      var item := items[itemIndex];
      assert item == h.all[scanned] && h.all[..scanned + 1] == h.all[..scanned] + [item];
      CollectMore(h.all[..scanned], item, id);
      ghost var before := candidates;
      scanned, itemIndex := scanned + 1, itemIndex + 1;
      if item.None? { continue; }
      if !found {
        if item.value.id != id { continue; }
        found := true;
        candidates := [Candidate(item.value, true)];
        continue;
      }
      candidates := candidates + [Candidate(item.value, false)];
      priors := priors + 1;
      if priors == MAX_PRIOR {
        if itemIndex < |items| || hasMore {
          StopsAtTheLimit(h, id, scanned, candidates);
          return scanned, candidates, true;
        }
        assert h.all[..|h.all| - 1] == h.all[..scanned - 1] && before == Collect(h.all[..scanned - 1], id);
      }
    }
  }

  /** Reads pages until the trigger and 64 predecessors are found, the history ends, or 256 entries were read. */
  method SnapshotCandidates<M>(answers: seq<Answer<M>>, id: string) returns (s: Snapshot<M>, calls: nat)
    ensures s == Flat(HistoryOf(answers), id)
    ensures (forall i :: 0 <= i < |answers| && answers[i].Page? ==> answers[i].items != []) ==> calls <= 256
  {
    hide Flat, Collect, HistoryOf, Items;
    ghost var h, d := HistoryOf(answers), Deciding(answers);
    var candidates: seq<Candidate<M>> := [];
    var scanned: nat, limited := 0, false;
    calls := 0;
    NothingYet(answers, id);
    while scanned < MAX_SCAN
      invariant calls <= d
      invariant Gathered(h, id, scanned, candidates) && |candidates| <= MAX_PRIOR
      invariant scanned == |Items(answers[..calls])| || scanned == MAX_SCAN <= |Items(answers[..calls])|
      invariant (forall i :: 0 <= i < |answers| && answers[i].Page? ==> answers[i].items != []) ==> calls <= scanned
      decreases d - calls
    {
      if calls >= |answers| || answers[calls].Failed? {
        FailureEndsTheHistory(answers);
        StopsAtTheEnd(h, id, scanned, candidates);
        EndingOf(h, id);
        return Snapshot(candidates, Unreadable), calls + 1;
      }
      var page := answers[calls];
      PageInHistory(answers, calls);
      scanned, candidates, limited := ScanPage(h, page.items, page.hasMore, id, scanned, candidates);
      calls := calls + 1;
      if limited { return Snapshot(candidates, MessageLimit), calls; }
      if !page.hasMore || !page.token {
        StopsAtTheEnd(h, id, scanned, candidates);
        EndingOf(h, id);
        return Snapshot(candidates, if page.hasMore then Unreadable else Whole), calls;
      }
    }
    StopsAtTheEnd(h, id, scanned, candidates);
    StartsAfter(answers, calls);
    EndingOf(h, id);
    return Snapshot(candidates, ScanLimit), calls;
  }

  lemma NothingYet<M>(answers: seq<Answer<M>>, id: string)
    ensures Gathered(HistoryOf(answers), id, 0, []) && Items(answers[..0]) == []
  {
  }

  lemma EndingOf<M>(h: History<M>, id: string)
    ensures !Flat(h, id).ending.MessageLimit? ==>
      Flat(h, id).ending == if h.start >= MAX_SCAN then ScanLimit else if h.whole then Whole else Unreadable
  {
  }

  lemma StartsAfter<M>(answers: seq<Answer<M>>, k: nat)
    requires k <= Deciding(answers)
    ensures |Items(answers[..k])| <= HistoryOf(answers).start
  {
    ItemsUpTo(answers, k, Deciding(answers));
  }
}
