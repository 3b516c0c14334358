/** The snapshot of who authored which message: its canonical form, and reading it back. */
module Ownership {
  import opened Options

  const MAX_FILE := 8 * 1024 * 1024

  datatype Owner = Owner(provider: string, expiresAt: int)

  type Owners = map<string, Owner>

  datatype Item = Item(messageRef: string, provider: string, expiresAt: int)

  // ---------------------------------------------------------------- the snapshot

  predicate Less(a: string, b: string) {
    b != "" && (a == "" || a[0] < b[0] || (a[0] == b[0] && Less(a[1..], b[1..])))
  }

  lemma {:induction false} LessIsTotal(a: string, b: string)
    ensures Less(a, b) || a == b || Less(b, a)
    ensures !(Less(a, b) && Less(b, a)) && !Less(a, a)
  {
    if a != "" {
      LessIsTotal(a[1..], a[1..]);
    }
    if a != "" && b != "" && a[0] == b[0] {
      LessIsTotal(a[1..], b[1..]);
      assert a[1..] == b[1..] ==> a == [a[0]] + a[1..] == [b[0]] + b[1..] == b;
    }
  }

  lemma {:induction false} LessIsTransitive(a: string, b: string, c: string)
    requires Less(a, b) && Less(b, c)
    ensures Less(a, c)
  {
    if a != "" && a[0] == b[0] == c[0] {
      LessIsTransitive(a[1..], b[1..], c[1..]);
    }
  }

  ghost predicate Sorted(items: seq<Item>) {
    forall i, j :: 0 <= i < j < |items| ==> Less(items[i].messageRef, items[j].messageRef)
  }

  ghost predicate Listed(items: seq<Item>, k: string) { exists i :: 0 <= i < |items| && items[i].messageRef == k }

  ghost predicate Lists(items: seq<Item>, owners: Owners) {
    && (forall i :: 0 <= i < |items| ==> items[i].messageRef in owners)
    && (forall i :: 0 <= i < |items| ==> owners[items[i].messageRef] == Owner(items[i].provider, items[i].expiresAt))
    && (forall k :: k in owners ==> Listed(items, k))
  }

  /** The file's contents: one item per owner, in increasing order of reference. */
  ghost predicate SnapshotOf(items: seq<Item>, owners: Owners) { Sorted(items) && Lists(items, owners) }

  lemma FirstIsLeast(items: seq<Item>, owners: Owners, k: string)
    requires SnapshotOf(items, owners) && k in owners
    ensures items != [] && (k == items[0].messageRef || Less(items[0].messageRef, k))
  {
    assert Listed(items, k);
  }

  lemma TailIsTheRest(items: seq<Item>, owners: Owners)
    requires SnapshotOf(items, owners) && items != []
    ensures SnapshotOf(items[1..], owners - {items[0].messageRef})
  {
    var k, rest := items[0].messageRef, items[1..];
    forall i | 0 <= i < |rest| ensures rest[i].messageRef != k {
      assert rest[i] == items[i + 1];
      LessIsTotal(k, rest[i].messageRef);
    }
    forall j | j in owners - {k} ensures Listed(rest, j) {
      assert Listed(items, j);
      var i :| 0 <= i < |items| && items[i].messageRef == j;
      assert rest[i - 1].messageRef == j;
    }
  }

  lemma FirstsAgree(a: seq<Item>, b: seq<Item>, owners: Owners)
    requires SnapshotOf(a, owners) && SnapshotOf(b, owners) && a != []
    ensures b != [] && a[0] == b[0]
  {
    FirstIsLeast(b, owners, a[0].messageRef);
    FirstIsLeast(a, owners, b[0].messageRef);
    LessIsTotal(a[0].messageRef, b[0].messageRef);
  }

  /** The file depends on the map alone, not on the order it was walked in. */
  lemma {:induction false} SnapshotIsCanonical(a: seq<Item>, b: seq<Item>, owners: Owners)
    requires SnapshotOf(a, owners) && SnapshotOf(b, owners)
    ensures a == b
    decreases |a|
  {
    hide SnapshotOf;
    if a != [] {
      FirstsAgree(a, b, owners);
      TailIsTheRest(a, owners);
      TailIsTheRest(b, owners);
      SnapshotIsCanonical(a[1..], b[1..], owners - {a[0].messageRef});
      assert a == [a[0]] + a[1..] && b == [b[0]] + b[1..];
    } else if b != [] {
      FirstsAgree(b, a, owners);
    }
  }

  // ---------------------------------------------------------------- the snapshot as a function

  function Inserted(items: seq<Item>, x: Item): seq<Item> {
    if items == [] || Less(x.messageRef, items[0].messageRef) then [x] + items else [items[0]] + Inserted(items[1..], x)
  }

  lemma {:induction false} InsertedIsSorted(items: seq<Item>, x: Item)
    requires Sorted(items) && forall i :: 0 <= i < |items| ==> items[i].messageRef != x.messageRef
    ensures Sorted(Inserted(items, x)) && forall y :: y in Inserted(items, x) <==> y in items || y == x
  {
    var out := Inserted(items, x);
    if items != [] {
      var first, rest := items[0], items[1..];
      LessIsTotal(x.messageRef, first.messageRef);
      if Less(x.messageRef, first.messageRef) {
        forall j | 0 <= j < |items| ensures Less(x.messageRef, items[j].messageRef) {
          if j > 0 { LessIsTransitive(x.messageRef, first.messageRef, items[j].messageRef); }
        }
      } else {
        InsertedIsSorted(rest, x);
        var more := Inserted(rest, x);
        assert items == [first] + rest && out == [first] + more;
        forall j | 0 <= j < |more| ensures Less(first.messageRef, more[j].messageRef) {
          assert more[j] in more;
          if more[j] in rest {
            var i :| 0 <= i < |rest| && rest[i] == more[j];
            assert items[i + 1] == more[j];
          }
        }
      }
    }
  }

  lemma InsertedLists(items: seq<Item>, owners: Owners, k: string)
    requires k in owners && SnapshotOf(items, owners - {k})
    ensures SnapshotOf(Inserted(items, Item(k, owners[k].provider, owners[k].expiresAt)), owners)
  {
    var x := Item(k, owners[k].provider, owners[k].expiresAt);
    var out := Inserted(items, x);
    InsertedIsSorted(items, x);
    forall i | 0 <= i < |out|
      ensures out[i].messageRef in owners && owners[out[i].messageRef] == Owner(out[i].provider, out[i].expiresAt)
    {
      assert out[i] in out;
    }
    forall j | j in owners ensures Listed(out, j) {
      if j == k {
        assert x in out;
        var i :| 0 <= i < |out| && out[i] == x;
      } else {
        assert j in owners - {k} && Listed(items, j);
        var i :| 0 <= i < |items| && items[i].messageRef == j;
        assert items[i] in out;
        var m :| 0 <= m < |out| && out[m] == items[i];
      }
    }
  }

  lemma {:induction false} SnapshotExists(owners: Owners) returns (items: seq<Item>)
    ensures SnapshotOf(items, owners) && |items| == |owners.Keys|
    decreases |owners.Keys|
  {
    if owners == map[] {
      items := [];
    } else {
      var k :| k in owners;
      assert (owners - {k}).Keys == owners.Keys - {k};
      var rest := SnapshotExists(owners - {k});
      items := Inserted(rest, Item(k, owners[k].provider, owners[k].expiresAt));
      InsertedLists(rest, owners, k);
      InsertedCount(rest, Item(k, owners[k].provider, owners[k].expiresAt));
    }
  }

  lemma {:induction false} InsertedCount(items: seq<Item>, x: Item)
    ensures |Inserted(items, x)| == |items| + 1
  {
    if items != [] && !Less(x.messageRef, items[0].messageRef) {
      InsertedCount(items[1..], x);
    }
  }

  lemma SomeSnapshot(owners: Owners)
    ensures exists items :: SnapshotOf(items, owners)
  {
    var items := SnapshotExists(owners);
  }

  /** What is written for a map. */
  ghost function Snapshot(owners: Owners): (items: seq<Item>)
    ensures SnapshotOf(items, owners)
  {
    SomeSnapshot(owners);
    var items :| SnapshotOf(items, owners);
    items
  }

  lemma SnapshotCount(owners: Owners)
    ensures |Snapshot(owners)| == |owners.Keys|
  {
    var items := SnapshotExists(owners);
    SnapshotIsCanonical(items, Snapshot(owners), owners);
  }

  // ---------------------------------------------------------------- loading

  predicate ValidItem(item: Item) { item.messageRef != "" && item.provider != "" && item.expiresAt > 0 }

  predicate ValidOwners(owners: Owners) {
    forall k :: k in owners ==> k != "" && owners[k].provider != "" && owners[k].expiresAt > 0
  }

  function LoadItems(items: seq<Item>): Option<Owners> {
    if items == [] then Some(map[])
    else
      var item := items[|items| - 1];
      match LoadItems(items[..|items| - 1])
      case None => None
      case Some(front) =>
        if ValidItem(item) then Some(front[item.messageRef := Owner(item.provider, item.expiresAt)]) else None
  }

  /** A file: how many bytes of the encoding of `items` it holds, and how many of them survive a power loss. */
  datatype File = File(items: seq<Item>, written: nat, durable: nat)

  /** The length of the encoding of a list of items. */
  type Size = seq<Item> -> nat

  predicate Whole(f: File, size: Size) { f.written >= size(f.items) }

  /**
    Reads a file back through the read limit, or fails closed: on a torn file, on one longer
    than the limit, and on a blank or an expiry that is not positive.
  */
  function Load(f: File, size: Size): Option<Owners> {
    if !Whole(f, size) || size(f.items) > MAX_FILE then None else LoadItems(f.items)
  }

  ghost predicate AllValid(items: seq<Item>) { forall i :: 0 <= i < |items| ==> ValidItem(items[i]) }

  lemma SnapshotIsValid(owners: Owners)
    requires ValidOwners(owners)
    ensures AllValid(Snapshot(owners))
  {
    var items := SnapshotExists(owners);
    SnapshotIsCanonical(items, Snapshot(owners), owners);
  }

  lemma {:induction false} LoadsWhatIsListed(items: seq<Item>)
    requires Sorted(items)
    ensures LoadItems(items).Some? <==> AllValid(items)
    ensures LoadItems(items).Some? ==> Lists(items, LoadItems(items).value)
    decreases |items|
  {
    if items != [] {
      hide AllValid, Lists, ValidItem;
      var front, last := items[..|items| - 1], items[|items| - 1];
      assert items == front + [last];
      ValidOneMore(front, last);
      LoadsWhatIsListed(front);
      if LoadItems(front).Some? {
        ListsOneMore(front, last, LoadItems(front).value);
      }
    } else {
      NothingListed();
    }
  }

  lemma NothingListed()
    ensures Lists([], map[]) && AllValid([])
  {
  }

  lemma ValidOneMore(front: seq<Item>, last: Item)
    ensures AllValid(front + [last]) <==> AllValid(front) && ValidItem(last)
  {
    var items := front + [last];
    assert items[|front|] == last && forall i :: 0 <= i < |front| ==> items[i] == front[i];
  }

  /** Whatever loads is valid, in whatever order it was listed. */
  lemma {:induction false} LoadedIsValid(items: seq<Item>)
    ensures LoadItems(items).Some? ==> ValidOwners(LoadItems(items).value)
    decreases |items|
  {
    if items != [] {
      LoadedIsValid(items[..|items| - 1]);
    }
  }

  lemma ListsOneMore(front: seq<Item>, last: Item, owners: Owners)
    requires Sorted(front + [last]) && Lists(front, owners)
    ensures Lists(front + [last], owners[last.messageRef := Owner(last.provider, last.expiresAt)])
  {
    var items := front + [last];
    forall i | 0 <= i < |front| ensures front[i].messageRef != last.messageRef {
      assert Less(items[i].messageRef, items[|front|].messageRef);
      LessIsTotal(front[i].messageRef, last.messageRef);
    }
    forall k | k in owners ensures Listed(items, k) {
      assert Listed(front, k);
      var i :| 0 <= i < |front| && front[i].messageRef == k;
      assert items[i].messageRef == k;
    }
    assert items[|front|].messageRef == last.messageRef;
  }

  lemma ListsDetermines(items: seq<Item>, a: Owners, b: Owners)
    requires Lists(items, a) && Lists(items, b)
    ensures a == b
  {
    forall k | k in a ensures k in b && a[k] == b[k] {
      assert Listed(items, k);
    }
    forall k | k in b ensures k in a {
      assert Listed(items, k);
    }
  }

  lemma ValidTogether(items: seq<Item>, owners: Owners)
    requires Lists(items, owners)
    ensures AllValid(items) <==> ValidOwners(owners)
  {
    if AllValid(items) {
      forall k | k in owners ensures k != "" && owners[k].provider != "" && owners[k].expiresAt > 0 {
        assert Listed(items, k);
      }
    }
  }

  /**
    Reading back what was written for a map gives exactly that map if the file is whole and
    within the read limit and every owner is valid, and else nothing.
  */
  lemma LoadRebuildsIff(owners: Owners, f: File, size: Size)
    requires SnapshotOf(f.items, owners)
    ensures Load(f, size) ==
      if ValidOwners(owners) && Whole(f, size) && size(f.items) <= MAX_FILE then Some(owners) else None
  {
    LoadsWhatIsListed(f.items);
    ValidTogether(f.items, owners);
    if LoadItems(f.items).Some? {
      ListsDetermines(f.items, owners, LoadItems(f.items).value);
    }
  }
}
