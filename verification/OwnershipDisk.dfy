/**
  Replacing the snapshot file: the actions on disk one by one, with an error, a dead process or
  a power loss after any of them.
*/
module OwnershipDisk {
  import opened Options
  import opened Ownership

  /**
    The file under its name and the temporary file beside it, as the running system sees them,
    and the file the name would be left with by a power loss. Other files in the directory, such
    as temporary ones of dead processes, play no part.
  */
  datatype Disk = Disk(target: Option<File>, temp: Option<File>, settled: Option<File>)

  datatype Action = Create | Chmod | Write(bytes: nat) | Sync | Close | Rename | SyncDirectory

  function Act(d: Disk, a: Action, items: seq<Item>): Disk {
    match a
    case Create => d.(temp := Some(File(items, 0, 0)))
    case Write(bytes) => if d.temp.None? then d else d.(temp := Some(d.temp.value.(written := bytes)))
    case Sync => if d.temp.None? then d else d.(temp := Some(d.temp.value.(durable := d.temp.value.written)))
    case Rename => if d.temp.None? then d else d.(target := d.temp, temp := None)
    case SyncDirectory => d.(settled := d.target)
    case Chmod => d
    case Close => d
  }

  function ActAll(d: Disk, actions: seq<Action>, items: seq<Item>): Disk
    decreases |actions|
  {
    if actions == [] then d else ActAll(Act(d, actions[0], items), actions[1..], items)
  }

  /** The whole replacement, the write in pieces that end with everything written. */
  function Replacement(pieces: seq<nat>, length: nat): seq<Action> {
    [Create, Chmod] + Writes(pieces) + [Write(length), Sync, Close, Rename, SyncDirectory]
  }

  function Writes(pieces: seq<nat>): seq<Action> {
    if pieces == [] then [] else [Write(pieces[0])] + Writes(pieces[1..])
  }

  /** How far a replacement gets: to the end, to an error after some actions, or to the end of the process. */
  datatype Stop =
    | Completes(pieces: seq<nat>)
    | Fails(pieces: seq<nat>, after: nat)
    | Dies(pieces: seq<nat>, after: nat)

  function Reached(stop: Stop, length: nat): seq<Action> {
    var all := Replacement(stop.pieces, length);
    if stop.Completes? || stop.after >= |all| then all else all[..stop.after]
  }

  predicate Renamed(stop: Stop, length: nat) { Rename in Reached(stop, length) }

  /** The disk when the replacement is over; after an error the temporary file is removed. */
  function Replace(d: Disk, items: seq<Item>, size: Size, stop: Stop): Disk {
    var out := ActAll(d, Reached(stop, size(items)), items);
    if stop.Fails? then out.(temp := None) else out
  }

  /** A power loss: the name may fall back, and of each file any bytes that were not synced may go. */
  datatype Loss = Loss(back: bool, kept: nat)

  function Cut(f: Option<File>, kept: nat): Option<File> {
    if f.None? then f
    else
      var file := f.value;
      Some(file.(written :=
        if kept < file.durable then file.durable else if kept < file.written then kept else file.written))
  }

  function LosePower(d: Disk, loss: Loss): Disk {
    var target := Cut(if loss.back then d.settled else d.target, loss.kept);
    Disk(target, Cut(d.temp, loss.kept), target)
  }

  /** Nothing can be lost of the file under its name, whichever it is left with. */
  predicate Durable(f: Option<File>, size: Size) {
    f.Some? ==> f.value.written == f.value.durable == size(f.value.items)
  }

  predicate Safe(d: Disk, size: Size) { Durable(d.target, size) && Durable(d.settled, size) }

  function Complete(items: seq<Item>, size: Size): File { File(items, size(items), size(items)) }

  // ---------------------------------------------------------------- one replacement

  lemma {:induction false} ActBoth(d: Disk, a: seq<Action>, b: seq<Action>, items: seq<Item>)
    ensures ActAll(d, a + b, items) == ActAll(ActAll(d, a, items), b, items)
    decreases |a|
  {
    if a == [] {
      assert a + b == b;
    } else {
      assert (a + b)[1..] == a[1..] + b;
      ActBoth(Act(d, a[0], items), a[1..], b, items);
    }
  }

  predicate Quiet(actions: seq<Action>) {
    forall i :: 0 <= i < |actions| ==> !actions[i].Rename? && !actions[i].SyncDirectory?
  }

  lemma {:induction false} QuietActionsLeaveTheTarget(d: Disk, actions: seq<Action>, items: seq<Item>)
    requires Quiet(actions)
    ensures ActAll(d, actions, items).target == d.target && ActAll(d, actions, items).settled == d.settled
    ensures d.temp.Some? && d.temp.value.items == items ==>
              var temp := ActAll(d, actions, items).temp; temp.Some? && temp.value.items == items
    decreases |actions|
  {
    if actions != [] {
      QuietActionsLeaveTheTarget(Act(d, actions[0], items), actions[1..], items);
    }
  }

  lemma {:induction false} WritesAreQuiet(pieces: seq<nat>)
    ensures Quiet(Writes(pieces)) && |Writes(pieces)| == |pieces|
  {
    if pieces != [] {
      WritesAreQuiet(pieces[1..]);
    }
  }

  /** Everything before the rename: creation, permissions, all the writing, the sync and the close. */
  function Preparation(pieces: seq<nat>, length: nat): seq<Action> {
    [Create, Chmod] + Writes(pieces) + [Write(length), Sync, Close]
  }

  lemma PreparationIsQuiet(pieces: seq<nat>, length: nat)
    ensures Quiet(Preparation(pieces, length))
    ensures Replacement(pieces, length) == Preparation(pieces, length) + [Rename, SyncDirectory]
  {
    WritesAreQuiet(pieces);
  }

  /** Before the rename the temporary file is complete and none of it can be lost. */
  lemma PreparedFileIsComplete(d: Disk, items: seq<Item>, size: Size, pieces: seq<nat>)
    ensures ActAll(d, Preparation(pieces, size(items)), items)
            == d.(temp := Some(Complete(items, size)))
  {
    var begun := Act(Act(d, Create, items), Chmod, items);
    var writes := Writes(pieces);
    var ending := [Write(size(items)), Sync, Close];
    WritesAreQuiet(pieces);
    ActBoth(d, [Create, Chmod], writes + ending, items);
    assert [Create, Chmod][1..] == [Chmod] && [Chmod][1..] == [];
    assert ActAll(d, [Create, Chmod], items) == begun;
    ActBoth(begun, writes, ending, items);
    var written := ActAll(begun, writes, items);
    QuietActionsLeaveTheTarget(begun, writes, items);
    assert ending[1..] == [Sync, Close] && [Sync, Close][1..] == [Close] && [Close][1..] == [];
    assert ActAll(written, ending, items) == d.(temp := Some(Complete(items, size)));
    assert Preparation(pieces, size(items)) == [Create, Chmod] + (writes + ending);
  }

  /**
    Wherever a replacement stops, the file under its name is exactly the old one or exactly the
    new one, complete and durable, and it is the new one iff the rename was reached; what a power
    loss leaves there is one of the two or what it could have left before.
  */
  lemma ReplacementIsAtomic(d: Disk, items: seq<Item>, size: Size, stop: Stop)
    ensures var out := Replace(d, items, size, stop);
      && out.target == (if Renamed(stop, size(items)) then Some(Complete(items, size)) else d.target)
      && (out.settled == d.settled || (Renamed(stop, size(items)) && out.settled == Some(Complete(items, size))))
      && (stop.Completes? ==> Renamed(stop, size(items)) && out.settled == out.target)
  {
    var length := size(items);
    var before := Preparation(stop.pieces, length);
    var done := Reached(stop, length);
    PreparationIsQuiet(stop.pieces, length);
    var ready := ActAll(d, before, items);
    if |done| <= |before| {
      assert done == before[..|done|];
      QuietActionsLeaveTheTarget(d, done, items);
    } else {
      var rest := done[|before|..];
      assert done == before + rest;
      assert rest == [Rename] || rest == [Rename, SyncDirectory];
      ActBoth(d, before, rest, items);
      PreparedFileIsComplete(d, items, size, stop.pieces);
      assert done[|before|] == Rename;
      var renamed := Act(d.(temp := Some(Complete(items, size))), Rename, items);
      assert renamed == d.(target := Some(Complete(items, size)), temp := None);
      if |rest| == 1 {
        assert rest[1..] == [] && ActAll(ready, rest, items) == ActAll(renamed, [], items);
      } else {
        assert rest[1..] == [SyncDirectory] && [SyncDirectory][1..] == [];
        assert ActAll(ready, rest, items) == ActAll(Act(renamed, SyncDirectory, items), [], items);
      }
    }
  }

  /** A power loss tears nothing either. */
  lemma PowerLossTearsNothing(d: Disk, loss: Loss, size: Size)
    requires Safe(d, size)
    ensures var out := LosePower(d, loss);
      Safe(out, size) && (out.target == d.target || out.target == d.settled) && out.settled == out.target
  {
  }
}
