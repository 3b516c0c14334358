/**
  What a context snapshot carries out of the messages found: text, images and videos within the
  daemon's limits, snapshot-local author labels, and one counted issue per kind of loss.
*/
module ContextAssembly {
  import opened Options
  import opened HistoryScan

  const MAX_TEXT := 64 * 1024
  const MAX_IMAGES := 8
  const MAX_IMAGE := 5 * 1024 * 1024
  const MAX_ALL_IMAGES := 16 * 1024 * 1024
  const MAX_VIDEOS := 2
  const MAX_VIDEO := 64 * 1024 * 1024
  const MAX_ALL_VIDEOS := 96 * 1024 * 1024
  const MAX_DURATION := 600000
  const MAX_NAME := 256
  const PLACEHOLDER := "[unsupported video file]"

  datatype Code =
    | HistoryUnreadable | BoundaryNotFound | BoundaryScanLimit | MessageLimitHit
    | TextLimit | ImageLimit | ImageTooLarge | TotalImageLimit | ImageUnreadable | ImageType
    | VideoOmitted | UnsupportedMessage | MalformedMessage
    | VideoLimit | VideoTooLarge | VideoUnreadable | VideoType | VideoTooLong

  type Byte = bv8

  datatype Image = Image(mediaType: string, data: seq<Byte>)
  datatype Video = Video(mediaType: string, data: seq<Byte>, duration: nat, name: string)

  /** What fetching a resource would give; an undetected type is blank. */
  datatype Fetch = Failing | Bytes(mediaType: string, data: seq<Byte>)

  datatype VideoRef = VideoRef(duration: nat, name: string, fetch: Fetch)

  /** A message after parsing. An author without an id has a blank key. */
  datatype Content = Content(
    deleted: bool, authorKey: string, authorType: string,
    text: string, images: seq<Fetch>, videos: seq<VideoRef>, issues: seq<Code>)

  datatype Got<T> = Got(value: T) | Refused(code: Code)

  function DownloadImage(fetch: Fetch): (got: Got<Image>)
    ensures got.Got? ==> Presentable(got.value)
  {
    if fetch.Failing? then Refused(ImageUnreadable)
    else if |fetch.data| > MAX_IMAGE then Refused(ImageTooLarge)
    else if fetch.mediaType == "" then Refused(ImageType)
    else Got(Image(fetch.mediaType, fetch.data))
  }

  function DownloadVideo(ref: VideoRef): (got: Got<Video>)
    ensures got.Got? ==> Acceptable(got.value)
  {
    if ref.duration > MAX_DURATION then Refused(VideoTooLong)
    else if ref.fetch.Failing? then Refused(VideoUnreadable)
    else if |ref.fetch.data| > MAX_VIDEO then Refused(VideoTooLarge)
    else if ref.fetch.mediaType == "" then Refused(VideoType)
    else Got(Video(ref.fetch.mediaType, ref.fetch.data, ref.duration, Utf8Prefix(ref.name, MAX_NAME)))
  }

  predicate Presentable(i: Image) { |i.data| <= MAX_IMAGE && i.mediaType != "" }

  predicate Acceptable(v: Video) {
    |v.data| <= MAX_VIDEO && v.duration <= MAX_DURATION && Size(v.name) <= MAX_NAME && v.mediaType != ""
  }

  // ---------------------------------------------------------------- text

  function Width(c: char): (w: nat)
    ensures 1 <= w <= 4
  {
    if c as int < 0x80 then 1 else if c as int < 0x800 then 2 else if c as int < 0x10000 then 3 else 4
  }

  function Size(s: string): nat { if s == "" then 0 else Size(s[..|s| - 1]) + Width(s[|s| - 1]) }

  /** The longest prefix of whole characters that fits. */
  function Utf8Prefix(s: string, limit: int): (p: string)
    ensures p <= s && (Size(p) <= limit || p == "")
    ensures forall n :: |p| < n <= |s| ==> Size(s[..n]) > limit
  {
    if s == "" || Size(s) <= limit then assert s[..|s|] == s; s
    else
      var p := Utf8Prefix(s[..|s| - 1], limit);
      assert s[..|s|] == s;
      assert forall n :: |p| < n <= |s| - 1 ==> s[..|s| - 1][..n] == s[..n];
      p
  }

  // ---------------------------------------------------------------- the fold

  datatype Row = Row(source: Candidate<Content>, text: string, images: seq<Image>, videos: seq<Video>,
                     placeholder: bool)

  datatype Builder = Builder(
    text: nat, imageTries: nat, imageBytes: nat, videoTries: nat, videoBytes: nat,
    raised: seq<Code>, truncated: bool, unreadable: bool, rows: seq<Row>)

  datatype Shown = Shown(b: Builder, text: string)
  datatype Pictured = Pictured(b: Builder, images: seq<Image>)
  datatype Filmed = Filmed(b: Builder, videos: seq<Video>, failed: bool)

  function Raise(b: Builder, code: Code, cut: bool): Builder {
    b.(raised := b.raised + [code], truncated := b.truncated || cut)
  }

  function TakeText(b: Builder, text: string): Shown {
    if text == "" then Shown(b, "")
    else
      var remaining := MAX_TEXT - b.text;
      if remaining <= 0 then Shown(Raise(b, TextLimit, true), "")
      else if Size(text) > remaining then
        var p := Utf8Prefix(text, remaining);
        Shown(Raise(b, TextLimit, true).(text := b.text + Size(p)), p)
      else Shown(b.(text := b.text + Size(text)), text)
  }

  function TakeImage(p: Pictured, fetch: Fetch): Pictured {
    if p.b.imageTries >= MAX_IMAGES then p.(b := Raise(p.b, ImageLimit, true))
    else
      var b := p.b.(imageTries := p.b.imageTries + 1);
      match DownloadImage(fetch)
      case Refused(code) =>
        p.(b := Raise(b, code, code == ImageTooLarge).(unreadable := b.unreadable || code == ImageUnreadable))
      case Got(image) =>
        if b.imageBytes + |image.data| > MAX_ALL_IMAGES then p.(b := Raise(b, TotalImageLimit, true))
        else Pictured(b.(imageBytes := b.imageBytes + |image.data|), p.images + [image])
  }

  function TakeImages(b: Builder, fetches: seq<Fetch>): Pictured
    decreases |fetches|
  {
    if fetches == [] then Pictured(b, [])
    else TakeImage(TakeImages(b, fetches[..|fetches| - 1]), fetches[|fetches| - 1])
  }

  function TakeVideo(f: Filmed, ref: VideoRef): Filmed {
    if f.b.videoTries >= MAX_VIDEOS then Filmed(Raise(f.b, VideoLimit, true), f.videos, true)
    else
      var b := f.b.(videoTries := f.b.videoTries + 1);
      match DownloadVideo(ref)
      case Refused(code) => Filmed(Raise(b, code, code == VideoTooLarge || code == VideoTooLong), f.videos, true)
      case Got(video) =>
        if b.videoBytes + |video.data| > MAX_ALL_VIDEOS then Filmed(Raise(b, VideoLimit, true), f.videos, true)
        else Filmed(b.(videoBytes := b.videoBytes + |video.data|), f.videos + [video], f.failed)
  }

  function TakeVideos(b: Builder, refs: seq<VideoRef>): Filmed
    decreases |refs|
  {
    if refs == [] then Filmed(b, [], false)
    else TakeVideo(TakeVideos(b, refs[..|refs| - 1]), refs[|refs| - 1])
  }

  /** The trigger's own words ride in the prompt and stay out of the snapshot. */
  function TextOf(c: Candidate<Content>): string { if c.isTrigger then "" else c.message.content.text }

  predicate Withdrawn(c: Candidate<Content>) { c.message.content.deleted && !c.isTrigger }

  function Noted(b: Builder, content: Content): Builder {
    b.(raised := b.raised + content.issues, unreadable := b.unreadable || MalformedMessage in content.issues)
  }

  function Process(b: Builder, c: Candidate<Content>): Builder {
    if Withdrawn(c) then b
    else
      var content := c.message.content;
      var noted := Noted(b, content);
      var shown := TakeText(noted, TextOf(c));
      var pictured := TakeImages(shown.b, content.images);
      var filmed := TakeVideos(pictured.b, content.videos);
      var placeholder := filmed.failed && shown.text == "";
      if shown.text == "" && !placeholder && pictured.images == [] && filmed.videos == [] then filmed.b
      else filmed.b.(rows := filmed.b.rows + [Row(c, shown.text, pictured.images, filmed.videos, placeholder)])
  }

  /** Candidates come newest first and are processed oldest first. */
  function Walk(b: Builder, candidates: seq<Candidate<Content>>): Builder
    decreases |candidates|
  {
    if candidates == [] then b else Process(Walk(b, candidates[1..]), candidates[0])
  }

  function Empty(raised: seq<Code>, truncated: bool, unreadable: bool): Builder {
    Builder(0, 0, 0, 0, 0, raised, truncated, unreadable, [])
  }

  // ---------------------------------------------------------------- budgets

  function TextSize(rows: seq<Row>): nat {
    if rows == [] then 0 else TextSize(rows[..|rows| - 1]) + Size(rows[|rows| - 1].text)
  }

  function DataSize(images: seq<Image>): nat {
    if images == [] then 0 else DataSize(images[..|images| - 1]) + |images[|images| - 1].data|
  }

  function FilmSize(videos: seq<Video>): nat {
    if videos == [] then 0 else FilmSize(videos[..|videos| - 1]) + |videos[|videos| - 1].data|
  }

  function AllImages(rows: seq<Row>): seq<Image> {
    if rows == [] then [] else AllImages(rows[..|rows| - 1]) + rows[|rows| - 1].images
  }

  function AllVideos(rows: seq<Row>): seq<Video> {
    if rows == [] then [] else AllVideos(rows[..|rows| - 1]) + rows[|rows| - 1].videos
  }

  /**
    The counters say exactly what the rows carry, plus the attempts that came to nothing, and stay
    within the limits.
  */
  ghost predicate Accounted(b: Builder, images: seq<Image>, videos: seq<Video>, text: nat) {
    && b.text == TextSize(b.rows) + text <= MAX_TEXT
    && b.imageBytes == DataSize(AllImages(b.rows) + images) <= MAX_ALL_IMAGES
    && |AllImages(b.rows) + images| <= b.imageTries <= MAX_IMAGES
    && b.videoBytes == FilmSize(AllVideos(b.rows) + videos) <= MAX_ALL_VIDEOS
    && |AllVideos(b.rows) + videos| <= b.videoTries <= MAX_VIDEOS
    && (forall i :: i in AllImages(b.rows) + images ==> Presentable(i))
    && (forall v :: v in AllVideos(b.rows) + videos ==> Acceptable(v))
  }

  lemma TextAccounted(b: Builder, text: string)
    requires Accounted(b, [], [], 0)
    ensures Accounted(TakeText(b, text).b, [], [], Size(TakeText(b, text).text))
    ensures TakeText(b, text).b.rows == b.rows
  {
    hide TextSize, AllImages, AllVideos, DataSize, FilmSize, Presentable, Acceptable;
  }

  lemma OneMoreImage(all: seq<Image>, images: seq<Image>, image: Image)
    ensures all + (images + [image]) == (all + images) + [image]
    ensures DataSize(all + (images + [image])) == DataSize(all + images) + |image.data|
  {
    var before := all + images;
    assert all + (images + [image]) == before + [image] && (before + [image])[..|before|] == before;
  }

  lemma ImageAccounted(p: Pictured, fetch: Fetch, text: nat)
    requires Accounted(p.b, p.images, [], text)
    ensures var q := TakeImage(p, fetch); Accounted(q.b, q.images, [], text) && q.b.rows == p.b.rows
  {
    hide AllImages, AllVideos, DataSize, FilmSize, TextSize, Presentable, DownloadImage;
    if DownloadImage(fetch).Got? {
      OneMoreImage(AllImages(p.b.rows), p.images, DownloadImage(fetch).value);
    }
  }

  lemma {:induction false} ImagesAccounted(b: Builder, fetches: seq<Fetch>, text: nat)
    requires Accounted(b, [], [], text)
    ensures var p := TakeImages(b, fetches); Accounted(p.b, p.images, [], text) && p.b.rows == b.rows
    decreases |fetches|
  {
    if fetches != [] {
      ImagesAccounted(b, fetches[..|fetches| - 1], text);
      ImageAccounted(TakeImages(b, fetches[..|fetches| - 1]), fetches[|fetches| - 1], text);
    }
  }

  lemma OneMoreVideo(all: seq<Video>, videos: seq<Video>, video: Video)
    ensures all + (videos + [video]) == (all + videos) + [video]
    ensures FilmSize(all + (videos + [video])) == FilmSize(all + videos) + |video.data|
  {
    var before := all + videos;
    assert all + (videos + [video]) == before + [video] && (before + [video])[..|before|] == before;
  }

  lemma VideoAccounted(f: Filmed, ref: VideoRef, images: seq<Image>, text: nat)
    requires Accounted(f.b, images, f.videos, text)
    ensures var g := TakeVideo(f, ref); Accounted(g.b, images, g.videos, text) && g.b.rows == f.b.rows
  {
    hide AllImages, AllVideos, DataSize, FilmSize, TextSize, Acceptable, DownloadVideo;
    if DownloadVideo(ref).Got? {
      OneMoreVideo(AllVideos(f.b.rows), f.videos, DownloadVideo(ref).value);
    }
  }

  lemma {:induction false} VideosAccounted(b: Builder, refs: seq<VideoRef>, images: seq<Image>, text: nat)
    requires Accounted(b, images, [], text)
    ensures var f := TakeVideos(b, refs); Accounted(f.b, images, f.videos, text) && f.b.rows == b.rows
    decreases |refs|
  {
    if refs != [] {
      VideosAccounted(b, refs[..|refs| - 1], images, text);
      VideoAccounted(TakeVideos(b, refs[..|refs| - 1]), refs[|refs| - 1], images, text);
    }
  }

  lemma RowAccounted(b: Builder, row: Row)
    requires Accounted(b, row.images, row.videos, Size(row.text))
    ensures Accounted(b.(rows := b.rows + [row]), [], [], 0)
  {
    var rows := b.rows + [row];
    assert rows[..|rows| - 1] == b.rows;
    assert AllImages(rows) + [] == AllImages(b.rows) + row.images;
    assert AllVideos(rows) + [] == AllVideos(b.rows) + row.videos;
  }

  lemma ProcessAccounted(b: Builder, c: Candidate<Content>)
    requires Accounted(b, [], [], 0)
    ensures Accounted(Process(b, c), [], [], 0)
  {
    if !Withdrawn(c) {
      hide AllImages, AllVideos, DataSize, FilmSize, TextSize, Presentable, Acceptable, TakeText, TakeImages,
        TakeVideos;
      var content := c.message.content;
      var noted := Noted(b, content);
      var shown := TakeText(noted, TextOf(c));
      TextAccounted(noted, TextOf(c));
      var pictured := TakeImages(shown.b, content.images);
      ImagesAccounted(shown.b, content.images, Size(shown.text));
      var filmed := TakeVideos(pictured.b, content.videos);
      VideosAccounted(pictured.b, content.videos, pictured.images, Size(shown.text));
      RowAccounted(filmed.b, Row(c, shown.text, pictured.images, filmed.videos, filmed.failed && shown.text == ""));
    }
  }

  /** Whatever is found and however downloads go, the snapshot's counters are exact and its limits hold. */
  lemma {:induction false} LimitsHold(b: Builder, candidates: seq<Candidate<Content>>)
    requires Accounted(b, [], [], 0)
    ensures Accounted(Walk(b, candidates), [], [], 0)
    decreases |candidates|
  {
    if candidates != [] {
      LimitsHold(b, candidates[1..]);
      ProcessAccounted(Walk(b, candidates[1..]), candidates[0]);
    }
  }

  // ---------------------------------------------------------------- what is carried, and what is said about the rest

  ghost predicate Subsequence<T(!new)>(s: seq<T>, t: seq<T>)
    decreases |t|
  {
    if t == [] then s == []
    else
      var front, last := t[..|t| - 1], t[|t| - 1];
      Subsequence(s, front) || (s != [] && s[|s| - 1] == last && Subsequence(s[..|s| - 1], front))
  }

  /** Every download that succeeds, limits aside. */
  function Gotten(fetches: seq<Fetch>): seq<Image>
    decreases |fetches|
  {
    if fetches == [] then []
    else
      var got := DownloadImage(fetches[|fetches| - 1]);
      Gotten(fetches[..|fetches| - 1]) + if got.Got? then [got.value] else []
  }

  function GottenVideos(refs: seq<VideoRef>): seq<Video>
    decreases |refs|
  {
    if refs == [] then []
    else
      var got := DownloadVideo(refs[|refs| - 1]);
      GottenVideos(refs[..|refs| - 1]) + if got.Got? then [got.value] else []
  }

  /** The whole message, as if there were no limits. */
  function InFull(c: Candidate<Content>): seq<Row> {
    var content := c.message.content;
    var row := Row(c, TextOf(c), Gotten(content.images), GottenVideos(content.videos), false);
    if Withdrawn(c) || (row.text == "" && row.images == [] && row.videos == []) then [] else [row]
  }

  function Everything(candidates: seq<Candidate<Content>>): seq<Row>
    decreases |candidates|
  {
    if candidates == [] then [] else Everything(candidates[1..]) + InFull(candidates[0])
  }

  /** A row shows nothing but a beginning of its message's text and some of its downloads, in order. */
  ghost predicate Honest(row: Row) {
    && !Withdrawn(row.source)
    && row.text <= TextOf(row.source)
    && Subsequence(row.images, Gotten(row.source.message.content.images))
    && Subsequence(row.videos, GottenVideos(row.source.message.content.videos))
    && (row.placeholder ==> row.text == "" && row.source.message.content.videos != [])
    && (row.text != "" || row.placeholder || row.images != [] || row.videos != [])
  }

  function New(b: Builder, c: Builder): seq<Code> { if |b.raised| <= |c.raised| then c.raised[|b.raised|..] else [] }

  /**
    From one builder to the next, issues only accumulate, nothing is cut without one, and the status
    follows from them.
  */
  ghost predicate Reported(b: Builder, c: Builder) {
    && b.raised <= c.raised
    && (c.truncated ==> b.truncated || New(b, c) != [])
    && (c.unreadable <==> b.unreadable || ImageUnreadable in New(b, c) || MalformedMessage in New(b, c))
  }

  lemma ReportedOn(b: Builder, c: Builder, d: Builder)
    requires Reported(b, c) && Reported(c, d)
    ensures Reported(b, d) && New(b, d) == New(b, c) + New(c, d)
  {
    assert d.raised[|b.raised|..] == c.raised[|b.raised|..] + d.raised[|c.raised|..];
  }

  lemma {:induction false} SubsequenceOfItself<T(!new)>(t: seq<T>)
    ensures Subsequence(t, t)
    decreases |t|
  {
    if t != [] {
      SubsequenceOfItself(t[..|t| - 1]);
    }
  }

  lemma SubsequenceGrows<T(!new)>(s: seq<T>, t: seq<T>, x: T)
    requires Subsequence(s, t)
    ensures Subsequence(s, t + [x]) && Subsequence(s + [x], t + [x])
  {
    assert (t + [x])[..|t|] == t && (s + [x])[..|s|] == s;
  }

  lemma TextReported(b: Builder, text: string)
    ensures var shown := TakeText(b, text);
      && Reported(b, shown.b) && shown.b.rows == b.rows
      && shown.text <= text && (New(b, shown.b) == [] ==> shown.text == text)
  {
  }

  lemma ImageReported(p: Pictured, fetch: Fetch)
    ensures var q := TakeImage(p, fetch);
      && Reported(p.b, q.b) && q.b.rows == p.b.rows
      && (q.images == p.images || (DownloadImage(fetch).Got? && q.images == p.images + [DownloadImage(fetch).value]))
      && (New(p.b, q.b) == [] ==> DownloadImage(fetch).Got? && q.images == p.images + [DownloadImage(fetch).value])
  {
    var q := TakeImage(p, fetch);
    assert q.b.raised == p.b.raised + New(p.b, q.b);
  }

  lemma {:induction false} ImagesReported(b: Builder, fetches: seq<Fetch>)
    ensures var p := TakeImages(b, fetches);
      && Reported(b, p.b) && p.b.rows == b.rows
      && Subsequence(p.images, Gotten(fetches)) && (New(b, p.b) == [] ==> p.images == Gotten(fetches))
    decreases |fetches|
  {
    hide Subsequence, TakeImage, DownloadImage, Reported, New;
    SubsequenceOfItself<Image>([]);
    Unchanged(b);
    if fetches != [] {
      var front, last := fetches[..|fetches| - 1], fetches[|fetches| - 1];
      ImagesReported(b, front);
      var p := TakeImages(b, front);
      ImageReported(p, last);
      ReportedOn(b, p.b, TakeImage(p, last).b);
      if DownloadImage(last).Got? {
        SubsequenceGrows(p.images, Gotten(front), DownloadImage(last).value);
      } else {
        assert Gotten(fetches) == Gotten(front);
      }
    }
  }

  lemma Unchanged(b: Builder)
    ensures Reported(b, b) && New(b, b) == []
  {
  }

  lemma VideoReported(f: Filmed, ref: VideoRef)
    ensures var g := TakeVideo(f, ref);
      && Reported(f.b, g.b) && g.b.rows == f.b.rows
      && (g.videos == f.videos || (DownloadVideo(ref).Got? && g.videos == f.videos + [DownloadVideo(ref).value]))
      && (New(f.b, g.b) == [] ==> DownloadVideo(ref).Got? && g.videos == f.videos + [DownloadVideo(ref).value])
      && (g.failed <==> f.failed || New(f.b, g.b) != [])
  {
    var g := TakeVideo(f, ref);
    assert g.b.raised == f.b.raised + New(f.b, g.b);
  }

  lemma {:induction false} VideosReported(b: Builder, refs: seq<VideoRef>)
    ensures var f := TakeVideos(b, refs);
      && Reported(b, f.b) && f.b.rows == b.rows
      && Subsequence(f.videos, GottenVideos(refs)) && (New(b, f.b) == [] ==> f.videos == GottenVideos(refs))
      && (f.failed <==> New(b, f.b) != [])
    decreases |refs|
  {
    hide Subsequence, TakeVideo, DownloadVideo, Reported, New;
    SubsequenceOfItself<Video>([]);
    Unchanged(b);
    if refs != [] {
      var front, last := refs[..|refs| - 1], refs[|refs| - 1];
      VideosReported(b, front);
      var f := TakeVideos(b, front);
      VideoReported(f, last);
      ReportedOn(b, f.b, TakeVideo(f, last).b);
      if DownloadVideo(last).Got? {
        SubsequenceGrows(f.videos, GottenVideos(front), DownloadVideo(last).value);
      } else {
        assert GottenVideos(refs) == GottenVideos(front);
      }
    }
  }

  /** Parsing reports only what it could not carry or read. */
  ghost predicate Parsed(c: Candidate<Content>) {
    forall code :: code in c.message.content.issues ==> code in {VideoOmitted, UnsupportedMessage, MalformedMessage}
  }

  lemma NotedReported(b: Builder, c: Candidate<Content>)
    requires Parsed(c)
    ensures Reported(b, Noted(b, c.message.content)) && New(b, Noted(b, c.message.content)) == c.message.content.issues
  {
  }

  lemma ProcessReported(b: Builder, c: Candidate<Content>) returns (row: Row)
    requires Parsed(c)
    ensures var d := Process(b, c);
      && Reported(b, d)
      && (d.rows == b.rows || (d.rows == b.rows + [row] && row.source == c && Honest(row)))
      && (New(b, d) == [] ==> d.rows == b.rows + InFull(c))
  {
    hide TakeText, TakeImages, TakeVideos, Subsequence, Gotten, GottenVideos, Reported, New;
    var content := c.message.content;
    var noted := Noted(b, content);
    var shown := TakeText(noted, TextOf(c));
    var pictured := TakeImages(shown.b, content.images);
    var filmed := TakeVideos(pictured.b, content.videos);
    row := Row(c, shown.text, pictured.images, filmed.videos, filmed.failed && shown.text == "");
    if Withdrawn(c) {
      Unchanged(b);
    } else {
      NotedReported(b, c);
      TextReported(noted, TextOf(c));
      ReportedOn(b, noted, shown.b);
      ImagesReported(shown.b, content.images);
      ReportedOn(b, shown.b, pictured.b);
      VideosReported(pictured.b, content.videos);
      ReportedOn(b, pictured.b, filmed.b);
      RowsDoNotReport(b, filmed.b, row);
      NoVideosNoFailure(pictured.b);
    }
  }

  lemma RowsDoNotReport(b: Builder, c: Builder, row: Row)
    requires Reported(b, c)
    ensures var d := c.(rows := c.rows + [row]); Reported(b, d) && New(b, d) == New(b, c)
  {
  }

  lemma NoVideosNoFailure(b: Builder)
    ensures !TakeVideos(b, []).failed
  {
  }

  function Sources(rows: seq<Row>): seq<Candidate<Content>> {
    seq(|rows|, i requires 0 <= i < |rows| => rows[i].source)
  }

  function OldestFirst<T>(s: seq<T>): (r: seq<T>)
    ensures |r| == |s| && forall i :: 0 <= i < |s| ==> r[i] == s[|s| - 1 - i]
  {
    if s == [] then [] else OldestFirst(s[1..]) + [s[0]]
  }

  /**
    Every row shows only what its message holds, messages keep their order, oldest first, and
    withdrawn ones are not resurfaced. Nothing is cut without an issue; if no issue was raised at
    all, every message is there in full.
  */
  lemma {:induction false} NothingIsLostInSilence(b: Builder, candidates: seq<Candidate<Content>>)
    requires forall c :: c in candidates ==> Parsed(c)
    requires b.rows == []
    ensures var d := Walk(b, candidates);
      && (forall row :: row in d.rows ==> Honest(row))
      && Subsequence(Sources(d.rows), OldestFirst(candidates))
      && Reported(b, d)
      && (New(b, d) == [] ==> d.rows == Everything(candidates))
    decreases |candidates|
  {
    hide Process, Honest, Subsequence, Reported, New, InFull;
    if candidates == [] {
      Unchanged(b);
      SubsequenceOfItself<Candidate<Content>>([]);
      assert Sources([]) == [];
    } else {
      var c, older := candidates[0], candidates[1..];
      NothingIsLostInSilence(b, older);
      var w := Walk(b, older);
      var d := Process(w, c);
      var row := ProcessReported(w, c);
      ReportedOn(b, w, d);
      SubsequenceGrows(Sources(w.rows), OldestFirst(older), c);
      if d.rows != w.rows && d.rows == w.rows + [row] {
        assert Sources(d.rows) == Sources(w.rows) + [c];
      }
    }
  }

  // ---------------------------------------------------------------- issues as counted

  datatype Issue = Issue(code: Code, count: nat)

  /** The distinct values, in the order they first appeared. */
  function Distinct<T(==,!new)>(s: seq<T>): (d: seq<T>)
    ensures forall x :: x in d <==> x in s
    ensures forall i, j :: 0 <= i < j < |d| ==> d[i] != d[j]
  {
    if s == [] then []
    else
      var front, last := s[..|s| - 1], s[|s| - 1];
      assert s == front + [last];
      if last in front then Distinct(front) else Distinct(front) + [last]
  }

  function Count(raised: seq<Code>, code: Code): nat { multiset(raised)[code] }

  /** One entry per kind of issue, in order of first appearance, with the exact number of times it was raised. */
  function Tally(raised: seq<Code>): (issues: seq<Issue>)
    ensures |issues| == |Distinct(raised)|
  {
    var d := Distinct(raised);
    seq(|d|, i requires 0 <= i < |d| => Issue(d[i], Count(raised, d[i])))
  }

  lemma CountMore(raised: seq<Code>, code: Code, other: Code)
    ensures Count(raised + [code], other) == Count(raised, other) + if other == code then 1 else 0
  {
  }

  lemma DistinctMore<T(!new)>(s: seq<T>, x: T)
    ensures Distinct(s + [x]) == if x in s then Distinct(s) else Distinct(s) + [x]
  {
    assert (s + [x])[..|s|] == s;
  }

  lemma TallyMore(raised: seq<Code>, code: Code)
    ensures var was, now := Tally(raised), Tally(raised + [code]);
      && (forall i :: 0 <= i < |was| && was[i].code == code ==> now == was[i := Issue(code, was[i].count + 1)])
      && ((forall i :: 0 <= i < |was| ==> was[i].code != code) ==> now == was + [Issue(code, 1)])
  {
    hide Distinct;
    var d := Distinct(raised);
    DistinctMore(raised, code);
    forall other ensures Count(raised + [code], other) == Count(raised, other) + if other == code then 1 else 0 {
      CountMore(raised, code, other);
    }
    assert code !in raised ==> Count(raised, code) == 0;
    hide Count;
    var was, now := Tally(raised), Tally(raised + [code]);
    assert forall i :: 0 <= i < |was| ==> was[i].code == d[i];
    if code in raised {
      var i :| 0 <= i < |d| && d[i] == code;
      assert now == was[i := Issue(code, was[i].count + 1)];
    } else {
      assert now == was + [Issue(code, 1)];
    }
  }

  /** Counts one more issue of a kind, in place if the kind is listed already. */
  method AppendOrIncrement(issues: seq<Issue>, code: Code, ghost raised: seq<Code>) returns (out: seq<Issue>)
    requires issues == Tally(raised)
    ensures out == Tally(raised + [code])
  {
    TallyMore(raised, code);
    hide Tally;
    for index := 0 to |issues|
      invariant forall i :: 0 <= i < index ==> issues[i].code != code
    {
      if issues[index].code == code {
        return issues[index := issues[index].(count := issues[index].count + 1)];
      }
    }
    return issues + [Issue(code, 1)];
  }

  // ---------------------------------------------------------------- labels

  /** An author's number, from one, in order of first appearance; zero for an author without a key. */
  function Known(authors: seq<string>): seq<string> {
    if authors == [] then []
    else Known(authors[..|authors| - 1]) + if authors[|authors| - 1] == "" then [] else [authors[|authors| - 1]]
  }

  function IndexOf<T(==)>(s: seq<T>, x: T): (i: nat)
    ensures i <= |s| && (x in s ==> i < |s| && s[i] == x) && (x !in s ==> i == |s|)
    ensures forall j :: 0 <= j < i ==> s[j] != x
  {
    if s == [] || s[0] == x then 0 else 1 + IndexOf(s[1..], x)
  }

  function Label(authors: seq<string>, key: string): nat {
    if key == "" then 0 else 1 + IndexOf(Distinct(Known(authors)), key)
  }

  function Authors(rows: seq<Row>): seq<string> {
    seq(|rows|, i requires 0 <= i < |rows| => rows[i].source.message.content.authorKey)
  }

  lemma {:induction false} KnownHas(authors: seq<string>)
    ensures forall k :: k in Known(authors) <==> k != "" && k in authors
  {
    if authors != [] {
      KnownHas(authors[..|authors| - 1]);
      assert authors == authors[..|authors| - 1] + [authors[|authors| - 1]];
    }
  }

  lemma {:induction false} DistinctOfPrefix(authors: seq<string>, n: nat)
    requires n <= |authors|
    ensures Distinct(Known(authors[..n])) <= Distinct(Known(authors))
    decreases |authors| - n
  {
    if n == |authors| {
      assert authors[..n] == authors;
    } else {
      DistinctOfPrefix(authors, n + 1);
      assert authors[..n + 1][..n] == authors[..n];
      if authors[n] != "" {
        DistinctMore(Known(authors[..n]), authors[n]);
      } else {
        assert Known(authors[..n + 1]) == Known(authors[..n]);
      }
    }
  }

  lemma IndexInPrefix<T>(prefix: seq<T>, s: seq<T>, x: T)
    requires prefix <= s && x in prefix
    ensures IndexOf(prefix, x) == IndexOf(s, x)
  {
    assert s[IndexOf(prefix, x)] == x;
  }

  /** A new author is numbered after all before it. */
  lemma NewAuthor(authors: seq<string>, i: nat)
    requires i < |authors| && authors[i] != "" && authors[i] !in authors[..i]
    ensures Label(authors[..i + 1], authors[i]) == 1 + |Distinct(Known(authors[..i]))|
  {
    KnownHas(authors[..i]);
    var upTo := authors[..i + 1];
    assert upTo[..|upTo| - 1] == authors[..i] && upTo[|upTo| - 1] == authors[i];
    assert Known(upTo) == Known(authors[..i]) + [authors[i]];
    DistinctMore(Known(authors[..i]), authors[i]);
  }

  /** Numbers given once stay as the snapshot grows. */
  lemma LabelsStay(authors: seq<string>, n: nat, key: string)
    requires n <= |authors| && key in authors[..n]
    ensures Label(authors[..n], key) == Label(authors, key)
  {
    KnownHas(authors[..n]);
    DistinctOfPrefix(authors, n);
    if key != "" {
      IndexInPrefix(Distinct(Known(authors[..n])), Distinct(Known(authors)), key);
    }
  }

  /**
    Two messages carry the same label exactly when they have the same author key; a message
    without one carries none. A new author's number is one more than all numbers before it.
  */
  lemma LabelsNameAuthors(authors: seq<string>, i: nat, j: nat)
    requires i < |authors| && j < |authors|
    ensures Label(authors, authors[i]) == Label(authors, authors[j]) <==> authors[i] == authors[j]
    ensures Label(authors, authors[i]) == 0 <==> authors[i] == ""
    ensures authors[i] != "" && authors[i] !in authors[..i] ==>
              Label(authors, authors[i]) == 1 + |Distinct(Known(authors[..i]))|
  {
    KnownHas(authors);
    assert authors[..i + 1][i] == authors[i];
    LabelsStay(authors, i + 1, authors[i]);
    if authors[i] != "" && authors[i] !in authors[..i] {
      NewAuthor(authors, i);
    }
    hide Distinct, Known;
  }
}