/** The assembly loop itself: running totals, the growing issue list and the table of participants. */
module ContextAssemblers {
  import opened Options
  import opened HistoryScan
  import opened ContextAssembly

  datatype Status = Found | Missing | Unreadable

  /** `number` n stands for "participant-n", 0 for none. */
  datatype Shared = Shared(number: nat, authorType: string, text: string, images: seq<Image>, videos: seq<Video>)

  function SharedAs(rows: seq<Row>, i: nat): Shared
    requires i < |rows|
  {
    var row := rows[i];
    Shared(Label(Authors(rows), row.source.message.content.authorKey), row.source.message.content.authorType,
           if row.placeholder then PLACEHOLDER else row.text, row.images, row.videos)
  }

  function Labelled(rows: seq<Row>): seq<Shared> { seq(|rows|, i requires 0 <= i < |rows| => SharedAs(rows, i)) }

  /** The running totals of one assembly. */
  datatype Totals = Totals(
    text: nat, imageTries: nat, imageBytes: nat, videoTries: nat, videoBytes: nat,
    issues: seq<Issue>, truncated: bool, unreadable: bool)

  ghost predicate Mirrors(t: Totals, b: Builder) {
    t == Totals(b.text, b.imageTries, b.imageBytes, b.videoTries, b.videoBytes,
                Tally(b.raised), b.truncated, b.unreadable)
  }

  /** Notes an issue, and that something was cut if it was. */
  method Note(t: Totals, code: Code, cut: bool, ghost b: Builder) returns (out: Totals)
    requires Mirrors(t, b)
    ensures Mirrors(out, Raise(b, code, cut))
  {
    var issues := AppendOrIncrement(t.issues, code, b.raised);
    out := t.(issues := issues, truncated := t.truncated || cut);
  }

  method NoteAll(t: Totals, codes: seq<Code>, ghost b: Builder) returns (out: Totals)
    requires Mirrors(t, b)
    ensures Mirrors(out, b.(raised := b.raised + codes))
  {
    hide Tally;
    out := t;
    assert codes[..0] == [] && b.raised + [] == b.raised;
    for i := 0 to |codes|
      invariant Mirrors(out, b.(raised := b.raised + codes[..i]))
    {
      out := Note(out, codes[i], false, b.(raised := b.raised + codes[..i]));
      assert b.raised + codes[..i + 1] == (b.raised + codes[..i]) + [codes[i]];
    }
    assert codes[..|codes|] == codes;
  }

  method ShowText(t: Totals, text: string, ghost b: Builder) returns (out: Totals, shown: string)
    requires Mirrors(t, b)
    ensures Mirrors(out, TakeText(b, text).b) && shown == TakeText(b, text).text
  {
    if text == "" { return t, ""; }
    var remaining := MAX_TEXT - t.text;
    if remaining <= 0 {
      out := Note(t, TextLimit, true, b);
      return out, "";
    }
    if Size(text) > remaining {
      shown := Utf8Prefix(text, remaining);
      out := Note(t, TextLimit, true, b);
      return out.(text := out.text + Size(shown)), shown;
    }
    return t.(text := t.text + Size(text)), text;
  }

  method CarryImages(t: Totals, fetches: seq<Fetch>, ghost b: Builder) returns (out: Totals, images: seq<Image>)
    requires Mirrors(t, b)
    ensures var p := TakeImages(b, fetches); Mirrors(out, p.b) && images == p.images
  {
    hide Tally;
    out, images := t, [];
    ghost var p := Pictured(b, []);
    for i := 0 to |fetches|
      invariant p == TakeImages(b, fetches[..i]) && Mirrors(out, p.b) && images == p.images
    {
      assert fetches[..i + 1][..i] == fetches[..i];
      ghost var was := p;
      p := TakeImage(was, fetches[i]);
      if out.imageTries >= MAX_IMAGES {
        out := Note(out, ImageLimit, true, was.b);
        continue;
      }
      out := out.(imageTries := out.imageTries + 1);
      ghost var tried := was.b.(imageTries := was.b.imageTries + 1);
      var got := DownloadImage(fetches[i]);
      if got.Refused? {
        out := Note(out, got.code, got.code == ImageTooLarge, tried);
        out := out.(unreadable := out.unreadable || got.code == ImageUnreadable);
        continue;
      }
      if out.imageBytes + |got.value.data| > MAX_ALL_IMAGES {
        out := Note(out, TotalImageLimit, true, tried);
        continue;
      }
      out := out.(imageBytes := out.imageBytes + |got.value.data|);
      images := images + [got.value];
    }
    assert fetches[..|fetches|] == fetches;
  }

  method CarryVideos(t: Totals, refs: seq<VideoRef>, ghost b: Builder)
    returns (out: Totals, videos: seq<Video>, failed: bool)
    requires Mirrors(t, b)
    ensures var f := TakeVideos(b, refs); Mirrors(out, f.b) && videos == f.videos && failed == f.failed
  {
    hide Tally, DownloadVideo;
    out, videos, failed := t, [], false;
    ghost var f := Filmed(b, [], false);
    for i := 0 to |refs|
      invariant f == TakeVideos(b, refs[..i]) && Mirrors(out, f.b) && videos == f.videos && failed == f.failed
    {
      assert refs[..i + 1][..i] == refs[..i];
      ghost var was := f;
      f := TakeVideo(was, refs[i]);
      if out.videoTries >= MAX_VIDEOS {
        out := Note(out, VideoLimit, true, was.b);
        failed := true;
        continue;
      }
      out := out.(videoTries := out.videoTries + 1);
      ghost var tried := was.b.(videoTries := was.b.videoTries + 1);
      var got := DownloadVideo(refs[i]);
      if got.Refused? {
        out := Note(out, got.code, got.code == VideoTooLarge || got.code == VideoTooLong, tried);
        failed := true;
        continue;
      }
      if out.videoBytes + |got.value.data| > MAX_ALL_VIDEOS {
        out := Note(out, VideoLimit, true, tried);
        failed := true;
        continue;
      }
      out := out.(videoBytes := out.videoBytes + |got.value.data|);
      videos := videos + [got.value];
    }
    assert refs[..|refs|] == refs;
  }

  /** The table of participants holds the label of every author seen. */
  ghost predicate Numbered(participants: map<string, nat>, authors: seq<string>) {
    && (forall k :: k in participants <==> k != "" && k in authors)
    && (forall k :: k in participants ==> participants[k] == Label(authors, k))
    && |participants| == |Distinct(Known(authors))|
  }

  lemma OldLabelsStay(authors: seq<string>, key: string)
    ensures forall k :: k in authors ==> Label(authors + [key], k) == Label(authors, k)
  {
    var more := authors + [key];
    assert more[..|authors|] == authors;
    forall k | k in authors ensures Label(more, k) == Label(authors, k) {
      LabelsStay(more, |authors|, k);
    }
  }

  lemma OneMoreKnown(authors: seq<string>, key: string)
    ensures var was, now := Distinct(Known(authors)), Distinct(Known(authors + [key]));
      now == if key == "" || key in authors then was else was + [key]
  {
    var more := authors + [key];
    assert more[..|authors|] == authors && more[|authors|] == key;
    KnownHas(authors);
    if key == "" {
      assert Known(more) == Known(authors);
    } else {
      assert Known(more) == Known(authors) + [key];
      DistinctMore(Known(authors), key);
    }
  }

  lemma NewAuthorNumber(authors: seq<string>, key: string)
    requires key != "" && key !in authors
    ensures Label(authors + [key], key) == 1 + |Distinct(Known(authors))|
  {
    hide Label, Known, Distinct;
    var more := authors + [key];
    assert more[..|authors|] == authors && more[..|authors| + 1] == more;
    NewAuthor(more, |authors|);
  }

  lemma OneMoreAuthor(authors: seq<string>, key: string, participants: map<string, nat>)
    requires Numbered(participants, authors)
    ensures var more := authors + [key];
      && (key == "" ==> Numbered(participants, more))
      && (key in participants ==> Numbered(participants, more) && Label(more, key) == participants[key])
      && (key != "" && key !in participants ==>
            Label(more, key) == |participants| + 1 && Numbered(participants[key := |participants| + 1], more))
  {
    hide Label, Known, Distinct;
    OldLabelsStay(authors, key);
    OneMoreKnown(authors, key);
    if key != "" && key !in authors {
      NewAuthorNumber(authors, key);
    }
  }

  lemma OneMoreShared(rows: seq<Row>, row: Row)
    ensures Labelled(rows + [row]) == Labelled(rows) + [SharedAs(rows + [row], |rows|)]
    ensures Authors(rows + [row]) == Authors(rows) + [row.source.message.content.authorKey]
  {
    var more := rows + [row];
    var authors := Authors(more);
    assert authors[..|rows|] == Authors(rows);
    forall i | 0 <= i < |rows| ensures SharedAs(more, i) == SharedAs(rows, i) {
      assert authors[..|rows|][i] == authors[i] == rows[i].source.message.content.authorKey;
      LabelsStay(authors, |rows|, authors[i]);
    }
  }

  /** Labels one more message and appends it. */
  method Share(row: Row, participants: map<string, nat>, messages: seq<Shared>, ghost rows: seq<Row>)
    returns (participants': map<string, nat>, messages': seq<Shared>)
    requires Numbered(participants, Authors(rows)) && messages == Labelled(rows)
    ensures Numbered(participants', Authors(rows + [row])) && messages' == Labelled(rows + [row])
  {
    hide Numbered, Label;
    var content := row.source.message.content;
    participants' := participants;
    var number := 0;
    OneMoreAuthor(Authors(rows), content.authorKey, participants);
    OneMoreShared(rows, row);
    NoKeyNoLabel(Authors(rows + [row]));
    if content.authorKey != "" {
      if content.authorKey !in participants {
        participants' := participants[content.authorKey := |participants| + 1];
      }
      number := participants'[content.authorKey];
    }
    var text := if row.placeholder then PLACEHOLDER else row.text;
    messages' := messages + [Shared(number, content.authorType, text, row.images, row.videos)];
  }

  lemma NoKeyNoLabel(authors: seq<string>)
    ensures Label(authors, "") == 0
  {
  }

  /** Walks the candidates from the oldest on and settles the status. */
  method Assemble(candidates: seq<Candidate<Content>>, issues0: seq<Issue>, truncated0: bool, historyUnreadable: bool,
                  ghost raised0: seq<Code>)
    returns (status: Status, messages: seq<Shared>, issues: seq<Issue>, truncated: bool)
    requires issues0 == Tally(raised0)
    ensures var b := Walk(ContextAssembly.Empty(raised0, truncated0, historyUnreadable), candidates);
      && messages == Labelled(b.rows) && issues == Tally(b.raised) && truncated == b.truncated
      && status == if b.rows != [] then Found else if b.unreadable then Status.Unreadable else Missing
  {
    hide Tally, TakeText, TakeImages, TakeVideos, Numbered, Labelled;
    ghost var b0 := ContextAssembly.Empty(raised0, truncated0, historyUnreadable);
    ghost var b := b0;
    var t := Totals(0, 0, 0, 0, 0, issues0, truncated0, historyUnreadable);
    var participants: map<string, nat> := map[];
    messages := [];
    NobodyShared();
    var index := |candidates|;
    while index > 0
      invariant 0 <= index <= |candidates| && b == Walk(b0, candidates[index..])
      invariant Mirrors(t, b) && Numbered(participants, Authors(b.rows)) && messages == Labelled(b.rows)
    {
      index := index - 1;
      var c := candidates[index];
      assert candidates[index..][0] == c && candidates[index..][1..] == candidates[index + 1..];
      ghost var was := b;
      b := Process(was, c);
      if Withdrawn(c) { continue; }
      var content := c.message.content;
      t := NoteAll(t, content.issues, was);
      t := t.(unreadable := t.unreadable || MalformedMessage in content.issues);
      var text, images, videos, failed;
      ghost var noted := Noted(was, content);
      t, text := ShowText(t, TextOf(c), noted);
      ghost var shown := TakeText(noted, TextOf(c));
      t, images := CarryImages(t, content.images, shown.b);
      ghost var pictured := TakeImages(shown.b, content.images);
      t, videos, failed := CarryVideos(t, content.videos, pictured.b);
      ghost var filmed := TakeVideos(pictured.b, content.videos);
      RowsUntouched(noted, c);
      var placeholder := failed && text == "";
      if text == "" && !placeholder && images == [] && videos == [] { continue; }
      participants, messages := Share(Row(c, text, images, videos, placeholder), participants, messages, filmed.b.rows);
    }
    assert candidates[0..] == candidates;
    LabelledCount(b.rows);
    status := if |messages| > 0 then Found else if t.unreadable then Status.Unreadable else Missing;
    issues, truncated := t.issues, t.truncated;
  }

  lemma NobodyShared()
    ensures Numbered(map[], Authors([])) && Labelled([]) == []
  {
  }

  lemma LabelledCount(rows: seq<Row>)
    ensures |Labelled(rows)| == |rows|
  {
  }

  lemma RowsUntouched(noted: Builder, c: Candidate<Content>)
    ensures var shown := TakeText(noted, TextOf(c)); var pictured := TakeImages(shown.b, c.message.content.images);
      TakeVideos(pictured.b, c.message.content.videos).b.rows == noted.rows
  {
    var shown := TakeText(noted, TextOf(c));
    TextReported(noted, TextOf(c));
    ImagesReported(shown.b, c.message.content.images);
    VideosReported(TakeImages(shown.b, c.message.content.images).b, c.message.content.videos);
  }

  // ---------------------------------------------------------------- from the thread to the snapshot

  function EndingCodes(ending: Ending): seq<Code> {
    match ending
    case Whole => []
    case MessageLimit => [MessageLimitHit]
    case ScanLimit => [BoundaryScanLimit]
    case Unreadable => [HistoryUnreadable]
  }

  /**
    Why a walk stopped, and what is said of it. More than 64 messages before the trigger, with
    something known behind the last of them: the message limit. Else 256 entries before the last
    page: the scan limit. Else nothing if the last page was reached. Else the history could not be
    read to its end. The first two mark the snapshot truncated, the middle one and the last one
    make an empty snapshot unreadable.
  */
  lemma EndingsAreReported(h: History<Content>, triggerId: string)
    ensures var ending := Flat(h, triggerId).ending;
      var many := |Collect(Take(ButTheLast(h), 256), triggerId)| > 64;
      && EndingCodes(ending) == (if many then [MessageLimitHit]
                                 else if h.start >= 256 then [BoundaryScanLimit]
                                 else if h.whole then []
                                 else [HistoryUnreadable])
      && (ending.Truncated() <==> many || h.start >= 256)
      && (ending.HistoryUnreadable() <==> !many && (h.start >= 256 || !h.whole))
  {
    hide Collect, Take, ButTheLast;
  }

  function AssemblyOf(s: Snapshot<Content>): Builder {
    Walk(ContextAssembly.Empty(EndingCodes(s.ending), s.ending.Truncated(), s.ending.HistoryUnreadable()), s.candidates)
  }

  /** A thread lookup: without the trigger nothing is shown, whatever was read. */
  method LookupAttachedContext(answers: seq<Answer<Content>>, triggerId: string)
    returns (status: Status, messages: seq<Shared>, issues: seq<Issue>, truncated: bool)
    ensures var s := Flat(HistoryOf(answers), triggerId); var b := AssemblyOf(s);
      if s.candidates == [] then
        && status.Unreadable? && messages == [] && truncated == s.ending.Truncated()
        && issues == Tally(EndingCodes(s.ending) + [BoundaryNotFound])
      else
        && messages == Labelled(b.rows) && issues == Tally(b.raised) && truncated == b.truncated
        && status == if b.rows != [] then Found else if b.unreadable then Status.Unreadable else Missing
  {
    hide Tally, Labelled, Flat, HistoryOf, Walk;
    var s, calls := SnapshotCandidates(answers, triggerId);
    var codes := EndingCodes(s.ending);
    NothingTallied();
    issues := [];
    if codes != [] { issues := AppendOrIncrement([], codes[0], []); }
    assert issues == Tally(codes) by {
      assert codes != [] ==> [] + [codes[0]] == codes;
    }
    if s.candidates == [] {
      issues := AppendOrIncrement(issues, BoundaryNotFound, codes);
      return Status.Unreadable, [], issues, s.ending.Truncated();
    }
    status, messages, issues, truncated :=
      Assemble(s.candidates, issues, s.ending.Truncated(), s.ending.HistoryUnreadable(), codes);
  }

  lemma NothingTallied()
    ensures Tally([]) == []
  {
  }

  /**
    A snapshot of a thread within the scan limit that raised no issue shows the trigger and every
    earlier message in full.
  */
  lemma NoIssueMeansTheWholeThread(h: History<Content>, triggerId: string)
    requires |h.all| <= 256
    requires var s := Flat(h, triggerId); s.candidates != [] && forall c :: c in s.candidates ==> Parsed(c)
    requires AssemblyOf(Flat(h, triggerId)).raised == []
    ensures var b := AssemblyOf(Flat(h, triggerId));
      b.rows == Everything(Collect(h.all, triggerId)) && !b.truncated
  {
    hide Walk, Flat, Everything, Collect, Honest, Subsequence;
    var s := Flat(h, triggerId);
    var b0 := ContextAssembly.Empty(EndingCodes(s.ending), s.ending.Truncated(), s.ending.HistoryUnreadable());
    NothingIsLostInSilence(b0, s.candidates);
    assert b0.raised == [] && s.ending.Whole?;
    WholeMeansAllPredecessors(h, triggerId);
  }
}
