/** The ownership store: a map changed in place, and the snapshot file rewritten after each change. */
module OwnershipStore {
  import opened Options
  import opened Ownership
  import opened OwnershipDisk
  import opened OwnershipRuns

  ghost predicate DistinctItems(items: seq<Item>) {
    forall i, j :: 0 <= i < j < |items| ==> items[i].messageRef != items[j].messageRef
  }

  ghost predicate SameItems(a: seq<Item>, b: seq<Item>) { forall x :: x in a <==> x in b }

  lemma SameItemsListTheSame(a: seq<Item>, b: seq<Item>, owners: Owners)
    requires Lists(a, owners) && SameItems(a, b)
    ensures Lists(b, owners)
  {
    forall i | 0 <= i < |b|
      ensures b[i].messageRef in owners && owners[b[i].messageRef] == Owner(b[i].provider, b[i].expiresAt)
    {
      assert b[i] in a;
      var j :| 0 <= j < |a| && a[j] == b[i];
    }
    forall k | k in owners ensures Listed(b, k) {
      assert Listed(a, k);
      var i :| 0 <= i < |a| && a[i].messageRef == k;
      assert a[i] in b;
    }
  }

  /** One item per owner, in whatever order the map is walked. */
  method Collect(owners: Owners) returns (items: seq<Item>)
    ensures Lists(items, owners) && DistinctItems(items)
  {
    items := [];
    var left := owners.Keys;
    while left != {}
      invariant left <= owners.Keys && DistinctItems(items)
      invariant forall i :: 0 <= i < |items| ==> items[i].messageRef in owners && items[i].messageRef !in left
      invariant forall i :: 0 <= i < |items| ==>
        owners[items[i].messageRef] == Owner(items[i].provider, items[i].expiresAt)
      invariant forall k :: k in owners && k !in left ==> Listed(items, k)
      decreases left
    {
      var k :| k in left;
      ghost var before := items;
      items := items + [Item(k, owners[k].provider, owners[k].expiresAt)];
      left := left - {k};
      forall j | j in owners && j !in left ensures Listed(items, j) {
        if j == k {
          assert items[|before|].messageRef == j;
        } else {
          assert Listed(before, j);
          var i :| 0 <= i < |before| && before[i].messageRef == j;
          assert items[i].messageRef == j;
        }
      }
    }
  }

  method Insert(sorted: seq<Item>, x: Item) returns (out: seq<Item>)
    requires Sorted(sorted) && forall i :: 0 <= i < |sorted| ==> sorted[i].messageRef != x.messageRef
    ensures Sorted(out) && SameItems(out, sorted + [x])
  {
    var k := 0;
    while k < |sorted| && Less(sorted[k].messageRef, x.messageRef)
      invariant 0 <= k <= |sorted|
      invariant forall i :: 0 <= i < k ==> Less(sorted[i].messageRef, x.messageRef)
    {
      k := k + 1;
    }
    forall j | k <= j < |sorted| ensures Less(x.messageRef, sorted[j].messageRef) {
      LessIsTotal(sorted[k].messageRef, x.messageRef);
      if j > k { LessIsTransitive(x.messageRef, sorted[k].messageRef, sorted[j].messageRef); }
    }
    return sorted[..k] + [x] + sorted[k..];
  }

  method SortByReference(items: seq<Item>) returns (sorted: seq<Item>)
    requires DistinctItems(items)
    ensures Sorted(sorted) && SameItems(items, sorted)
  {
    sorted := [];
    for i := 0 to |items|
      invariant Sorted(sorted) && SameItems(items[..i], sorted)
    {
      forall j | 0 <= j < |sorted| ensures sorted[j].messageRef != items[i].messageRef {
        assert sorted[j] in items[..i];
      }
      ghost var before := sorted;
      sorted := Insert(sorted, items[i]);
      assert items[..i + 1] == items[..i] + [items[i]];
    }
    assert items[..|items|] == items;
  }

  class Store {
    const ttl: int
    var owners: Owners
    /** The state directory. */
    var disk: Disk
    /** Every map this or an earlier daemon set out to persist. */
    ghost var past: seq<Owners>

    ghost predicate Valid()
      reads this
    {
      "" !in owners
    }

    ghost function State(clock: int): World
      reads this
    {
      World(true, owners, disk, clock, past)
    }

    constructor (ttl: int, disk: Disk, owners: Owners, ghost past: seq<Owners>)
      ensures this.ttl == ttl && this.disk == disk && this.owners == owners && this.past == past
    {
      this.ttl, this.disk, this.owners, this.past := ttl, disk, owners, past;
    }

    /** Starts from whatever file is there, or refuses: a file that does not load is never ignored. */
    static method Open(ttl: int, disk: Disk, size: Size, ghost w: World, ghost at: int) returns (store: Option<Store>)
      requires w.disk == disk
      ensures store.Some? ==> store.value.Valid() && fresh(store.value) && store.value.ttl == ttl
      ensures Start(w, at, size) ==
        if store.Some? then store.value.State(at) else w.(up := false, owners := map[], clock := at)
    {
      if disk.target.None? {
        var s := new Store(ttl, disk, map[], w.past);
        return Some(s);
      }
      var loaded := Load(disk.target.value, size);
      if loaded.None? { return None; }
      LoadedIsValid(disk.target.value.items);
      var s := new Store(ttl, disk, loaded.value, w.past);
      return Some(s);
    }

    /** Replaces the whole file by the map's snapshot, action by action, as far as `stop` lets it get. */
    method PersistLocked(size: Size, stop: Stop) returns (ok: bool)
      requires Valid()
      modifies this`disk, this`past
      ensures past == old(past) + [owners] && disk == Replace(old(disk), Snapshot(owners), size, stop)
      ensures ok == stop.Completes?
    {
      var items := Collect(owners);
      var sorted := SortByReference(items);
      SameItemsListTheSame(items, sorted, owners);
      SnapshotIsCanonical(sorted, Snapshot(owners), owners);
      hide SnapshotOf, Act, Replacement;
      var actions := Replacement(stop.pieces, size(sorted));
      var last := if stop.Completes? || stop.after >= |actions| then |actions| else stop.after;
      for k := 0 to last
        invariant past == old(past) && disk == ActAll(old(disk), actions[..k], sorted)
      {
        ActBoth(old(disk), actions[..k], [actions[k]], sorted);
        assert actions[..k + 1] == actions[..k] + [actions[k]] && [actions[k]][1..] == [];
        disk := Act(disk, actions[k], sorted);
      }
      assert actions[..last] == Reached(stop, size(sorted));
      if stop.Fails? { disk := disk.(temp := None); }
      past := past + [owners];
      return stop.Completes?;
    }

    method Put(messageRef: string, provider: string, now: int, size: Size, stop: Stop, ghost clock: int)
      returns (ok: bool)
      requires Valid() && !stop.Dies?
      modifies this
      ensures Valid()
      ensures State(now) == Step(old(State(clock)), Event.Put(messageRef, provider, now, stop), ttl, size)
      ensures ok == (messageRef != "" && provider != "" && stop.Completes?)
    {
      hide Replace, SnapshotOf, Unix, Start, LosePower;
      if messageRef == "" || provider == "" {
        return false;
      }
      owners := owners[messageRef := Owner(provider, Unix(now + ttl))];
      ok := PersistLocked(size, stop);
      assert State(now) == Persist(old(State(clock)), owners, stop, now, size);
    }

    /** The unexpired owner; an expired one is forgotten, and that is persisted. */
    method Lookup(messageRef: string, now: int, size: Size, stop: Stop, ghost clock: int)
      returns (answer: Option<string>, ok: bool)
      requires Valid() && !stop.Dies?
      modifies this
      ensures Valid()
      ensures State(now) == Step(old(State(clock)), Event.Lookup(messageRef, now, stop), ttl, size)
      ensures answer == Answer(old(State(clock)), messageRef, now)
      ensures ok == (Expired(old(State(clock)), messageRef, now) ==> stop.Completes?)
    {
      if messageRef == "" || messageRef !in owners || Unix(now) < owners[messageRef].expiresAt {
        return if messageRef in owners then Some(owners[messageRef].provider) else None, true;
      }
      hide Replace, SnapshotOf;
      owners := owners - {messageRef};
      ok := PersistLocked(size, stop);
      return None, ok;
    }
  }
}
