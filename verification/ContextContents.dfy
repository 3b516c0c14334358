/**
  What a context snapshot carries, told from the messages and their downloads alone: which bytes,
  which words, and which code each thing left out is reported under.
*/
module ContextContents {
  import opened Options
  import opened HistoryScan
  import opened ContextAssembly

  // ---------------------------------------------------------------- one download

  /** An image is its download's very bytes and type; each refusal has one cause. */
  lemma ImageDownloads(fetch: Fetch, mediaType: string, data: seq<Byte>)
    ensures DownloadImage(fetch) == Got(Image(mediaType, data)) <==>
      fetch == Bytes(mediaType, data) && |data| <= 5242880 && mediaType != ""
    ensures DownloadImage(fetch) == Refused(ImageUnreadable) <==> fetch == Failing
    ensures DownloadImage(fetch) == Refused(ImageTooLarge) <==> fetch.Bytes? && |fetch.data| > 5242880
    ensures DownloadImage(fetch) == Refused(ImageType) <==>
      fetch.Bytes? && |fetch.data| <= 5242880 && fetch.mediaType == ""
  {
  }

  predicate GoodVideo(ref: VideoRef) {
    ref.duration <= 600000 && ref.fetch.Bytes? && |ref.fetch.data| <= 67108864 && ref.fetch.mediaType != ""
  }

  /** The longest beginning of the name, in whole characters, of at most 256 bytes. */
  predicate CutName(name: string, whole: string) {
    && name <= whole && Size(name) <= 256
    && (forall n :: |name| < n <= |whole| ==> Size(whole[..n]) > 256)
  }

  predicate IsVideoOf(v: Video, ref: VideoRef)
    requires ref.fetch.Bytes?
  {
    v.mediaType == ref.fetch.mediaType && v.data == ref.fetch.data && v.duration == ref.duration
    && CutName(v.name, ref.name)
  }

  /** A video is its download's very bytes and type with the announced duration and the name cut to fit. */
  lemma VideoDownloads(ref: VideoRef)
    ensures DownloadVideo(ref).Got? <==> GoodVideo(ref)
    ensures GoodVideo(ref) ==> IsVideoOf(DownloadVideo(ref).value, ref)
    ensures DownloadVideo(ref) == Refused(VideoTooLong) <==> ref.duration > 600000
    ensures DownloadVideo(ref) == Refused(VideoUnreadable) <==> ref.duration <= 600000 && ref.fetch == Failing
    ensures DownloadVideo(ref) == Refused(VideoTooLarge) <==>
      ref.duration <= 600000 && ref.fetch.Bytes? && |ref.fetch.data| > 67108864
    ensures DownloadVideo(ref) == Refused(VideoType) <==>
      ref.duration <= 600000 && ref.fetch.Bytes? && |ref.fetch.data| <= 67108864 && ref.fetch.mediaType == ""
  {
    assert Size("") == 0;
  }

  // ---------------------------------------------------------------- the size of words

  /** A character in UTF-8 (section 3 of RFC 3629). */
  function Encoded(c: char): seq<nat> {
    var n := c as int;
    if n < 0x80 then [n]
    else if n < 0x800 then [0xC0 + n / 64, 0x80 + n % 64]
    else if n < 0x10000 then [0xE0 + n / 4096, 0x80 + n / 64 % 64, 0x80 + n % 64]
    else [0xF0 + n / 262144, 0x80 + n / 4096 % 64, 0x80 + n / 64 % 64, 0x80 + n % 64]
  }

  function EncodedText(s: string): seq<nat> {
    if s == "" then [] else EncodedText(s[..|s| - 1]) + Encoded(s[|s| - 1])
  }

  /** The size of a text is the length of its encoding, whose lead bytes announce the widths they must. */
  lemma {:induction false} SizeCountsBytes(s: string)
    ensures Size(s) == |EncodedText(s)|
    ensures s != "" ==>
      var bytes := Encoded(s[|s| - 1]);
      && Width(s[|s| - 1]) == |bytes|
      && (|bytes| == 1 ==> bytes[0] < 0x80) && (|bytes| == 2 ==> 0xC2 <= bytes[0] <= 0xDF)
      && (|bytes| == 3 ==> 0xE0 <= bytes[0] <= 0xEF) && (|bytes| == 4 ==> 0xF0 <= bytes[0] <= 0xF4)
  {
    if s != "" { SizeCountsBytes(s[..|s| - 1]); }
  }

  // ---------------------------------------------------------------- the images of a snapshot

  /** All images of the messages that were not withdrawn, oldest message first. */
  function Pictures(candidates: seq<Candidate<Content>>): seq<Fetch>
    decreases |candidates|
  {
    if candidates == [] then []
    else
      var c := candidates[0];
      Pictures(candidates[1..]) + if c.message.content.deleted && !c.isTrigger then [] else c.message.content.images
  }

  /** Why the image in this place is left out, after others of so many bytes, if it is. */
  function ImageIssue(place: nat, used: nat, fetch: Fetch): Option<Code> {
    if place > 8 then Some(ImageLimit)
    else if fetch.Failing? then Some(ImageUnreadable)
    else if |fetch.data| > 5242880 then Some(ImageTooLarge)
    else if fetch.mediaType == "" then Some(ImageType)
    else if used + |fetch.data| > 16777216 then Some(TotalImageLimit)
    else None
  }

  /** Of the first eight, those of a named type within 5 MiB that still fit into 16 MiB together. */
  function Carried(all: seq<Fetch>): seq<Image>
    decreases |all|
  {
    if all == [] then []
    else
      var before, last := Carried(all[..|all| - 1]), all[|all| - 1];
      if ImageIssue(|all|, DataSize(before), last).None? then before + [Image(last.mediaType, last.data)] else before
  }

  /** What is reported for each image, one code at most, in the order of the images. */
  function ImageIssues(all: seq<Fetch>): seq<Code>
    decreases |all|
  {
    if all == [] then []
    else
      var issue := ImageIssue(|all|, DataSize(Carried(all[..|all| - 1])), all[|all| - 1]);
      ImageIssues(all[..|all| - 1]) + if issue.Some? then [issue.value] else []
  }

  /** The reports of one kind among all that were raised. */
  function Only(raised: seq<Code>, kind: set<Code>): seq<Code>
    decreases |raised|
  {
    if raised == [] then []
    else
      var last := raised[|raised| - 1];
      Only(raised[..|raised| - 1], kind) + if last in kind then [last] else []
  }

  const IMAGE_CODES: set<Code> := {ImageLimit, ImageUnreadable, ImageTooLarge, ImageType, TotalImageLimit}
  const VIDEO_CODES: set<Code> := {VideoLimit, VideoTooLong, VideoUnreadable, VideoTooLarge, VideoType}

  lemma {:induction false} OnlyBoth(a: seq<Code>, b: seq<Code>, kind: set<Code>)
    ensures Only(a + b, kind) == Only(a, kind) + Only(b, kind)
    decreases |b|
  {
    if b == [] {
      assert a + b == a;
    } else {
      assert (a + b)[..|a + b| - 1] == a + b[..|b| - 1];
      OnlyBoth(a, b[..|b| - 1], kind);
    }
  }

  lemma {:induction false} NoneOfAKind(raised: seq<Code>, kind: set<Code>)
    requires forall code :: code in raised ==> code !in kind
    ensures Only(raised, kind) == []
  {
    if raised != [] { NoneOfAKind(raised[..|raised| - 1], kind); }
  }

  /** The counters and images after some of the pictures. */
  ghost predicate PicturesTold(b: Builder, carried: seq<Image>, all: seq<Fetch>) {
    && carried == Carried(all)
    && b.imageTries == (if |all| <= 8 then |all| else 8)
    && b.imageBytes == DataSize(Carried(all))
    && Only(b.raised, IMAGE_CODES) == ImageIssues(all)
  }

  lemma OnlyOneMore(raised: seq<Code>, code: Code, kind: set<Code>)
    ensures Only(raised + [code], kind) == Only(raised, kind) + if code in kind then [code] else []
  {
    assert (raised + [code])[..|raised|] == raised;
  }

  lemma DataOfMore(images: seq<Image>, image: Image)
    ensures DataSize(images + [image]) == DataSize(images) + |image.data|
  {
    assert (images + [image])[..|images|] == images;
  }

  lemma TakesByIssue(p: Pictured, fetch: Fetch)
    ensures var q, issue := TakeImage(p, fetch), ImageIssue(p.b.imageTries + 1, p.b.imageBytes, fetch);
      && q.b.rows == p.b.rows
      && q.b.imageTries == (if p.b.imageTries >= 8 then p.b.imageTries else p.b.imageTries + 1)
      && q.b.raised == p.b.raised + (if issue.Some? then [issue.value] else [])
      && (issue.Some? ==> q.images == p.images && q.b.imageBytes == p.b.imageBytes && issue.value in IMAGE_CODES)
      && (issue.None? ==>
            fetch.Bytes? && q.images == p.images + [Image(fetch.mediaType, fetch.data)]
            && q.b.imageBytes == p.b.imageBytes + |fetch.data|)
  {
  }

  lemma CarriedOneMore(all: seq<Fetch>, fetch: Fetch)
    ensures var issue := ImageIssue(|all| + 1, DataSize(Carried(all)), fetch);
      && Carried(all + [fetch])
         == Carried(all) + (if issue.None? then [Image(fetch.mediaType, fetch.data)] else [])
      && ImageIssues(all + [fetch]) == ImageIssues(all) + (if issue.Some? then [issue.value] else [])
  {
    hide DataSize, ImageIssue;
    assert (all + [fetch])[..|all|] == all && (all + [fetch])[|all|] == fetch;
  }

  lemma OnePicture(p: Pictured, earlier: seq<Image>, all: seq<Fetch>, fetch: Fetch)
    requires PicturesTold(p.b, earlier + p.images, all)
    ensures var q := TakeImage(p, fetch); PicturesTold(q.b, earlier + q.images, all + [fetch]) && q.b.rows == p.b.rows
  {
    hide Only, DataSize, TakeImage, ImageIssue, Carried, ImageIssues;
    var q := TakeImage(p, fetch);
    var issue := ImageIssue(|all| + 1, DataSize(Carried(all)), fetch);
    TakesByIssue(p, fetch);
    SameImageIssue(|all|, p.b.imageTries, p.b.imageBytes, fetch);
    CarriedOneMore(all, fetch);
    assert Carried(all) + [] == Carried(all) && ImageIssues(all) + [] == ImageIssues(all);
    assert p.b.raised + [] == p.b.raised;
    if issue.Some? {
      OnlyOneMore(p.b.raised, issue.value, IMAGE_CODES);
    } else {
      assert earlier + q.images == earlier + p.images + [Image(fetch.mediaType, fetch.data)];
      DataOfMore(Carried(all), Image(fetch.mediaType, fetch.data));
    }
  }

  lemma SameImageIssue(places: nat, tries: nat, used: nat, fetch: Fetch)
    requires tries == if places <= 8 then places else 8
    ensures ImageIssue(places + 1, used, fetch) == ImageIssue(tries + 1, used, fetch)
    ensures ImageIssue(places + 1, used, fetch).None? ==> fetch.Bytes?
  {
  }

  lemma {:induction false} MorePictures(b: Builder, earlier: seq<Image>, all: seq<Fetch>, fetches: seq<Fetch>)
    requires PicturesTold(b, earlier, all)
    ensures var p := TakeImages(b, fetches);
      && PicturesTold(p.b, earlier + p.images, all + fetches) && p.b.rows == b.rows
    decreases |fetches|
  {
    hide PicturesTold, TakeImage;
    if fetches == [] {
      assert all + fetches == all && earlier + [] == earlier;
    } else {
      var front, last := fetches[..|fetches| - 1], fetches[|fetches| - 1];
      MorePictures(b, earlier, all, front);
      OnePicture(TakeImages(b, front), earlier, all + front, last);
      assert all + front + [last] == all + fetches;
    }
  }

  /** Parsing, text and videos leave the images, their counters and their reports alone. */
  predicate SamePictures(b: Builder, c: Builder) {
    c.imageTries == b.imageTries && c.imageBytes == b.imageBytes && c.rows == b.rows
    && Only(c.raised, IMAGE_CODES) == Only(b.raised, IMAGE_CODES)
  }

  lemma RaisesNoPicture(b: Builder, code: Code)
    requires code !in IMAGE_CODES
    ensures Only(b.raised + [code], IMAGE_CODES) == Only(b.raised, IMAGE_CODES)
  {
    OnlyOneMore(b.raised, code, IMAGE_CODES);
  }

  lemma TextTakesNoPictures(b: Builder, text: string)
    ensures SamePictures(b, TakeText(b, text).b)
  {
    hide Only;
    RaisesNoPicture(b, TextLimit);
  }

  lemma ParsingTakesNoPictures(b: Builder, c: Candidate<Content>)
    requires Parsed(c)
    ensures SamePictures(b, Noted(b, c.message.content))
  {
    OnlyBoth(b.raised, c.message.content.issues, IMAGE_CODES);
    NoneOfAKind(c.message.content.issues, IMAGE_CODES);
  }

  lemma VideoTakesNoPicture(f: Filmed, ref: VideoRef)
    ensures SamePictures(f.b, TakeVideo(f, ref).b)
  {
    hide Only;
    var g := TakeVideo(f, ref);
    if g.b.raised != f.b.raised { RaisesNoPicture(f.b, g.b.raised[|f.b.raised|]); }
  }

  lemma {:induction false} VideosTakeNoPictures(b: Builder, refs: seq<VideoRef>)
    ensures SamePictures(b, TakeVideos(b, refs).b)
    decreases |refs|
  {
    hide Only, TakeVideo;
    if refs != [] {
      VideosTakeNoPictures(b, refs[..|refs| - 1]);
      VideoTakesNoPicture(TakeVideos(b, refs[..|refs| - 1]), refs[|refs| - 1]);
    }
  }

  lemma MessageOfPictures(b: Builder, c: Candidate<Content>, all: seq<Fetch>)
    requires PicturesTold(b, AllImages(b.rows), all) && Parsed(c)
    ensures var d := Process(b, c);
      PicturesTold(d, AllImages(d.rows), all + if Withdrawn(c) then [] else c.message.content.images)
  {
    if Withdrawn(c) {
      assert all + [] == all;
    } else {
      hide TakeText, TakeImages, TakeVideos, Carried, ImageIssues, DataSize, Only;
      var noted := Noted(b, c.message.content);
      ParsingTakesNoPictures(b, c);
      var shown := TakeText(noted, TextOf(c));
      TextTakesNoPictures(noted, TextOf(c));
      assert AllImages(b.rows) + [] == AllImages(b.rows);
      MorePictures(shown.b, AllImages(b.rows), all, c.message.content.images);
      var pictured := TakeImages(shown.b, c.message.content.images);
      VideosTakeNoPictures(pictured.b, c.message.content.videos);
      var filmed := TakeVideos(pictured.b, c.message.content.videos);
      var d := Process(b, c);
      assert d.rows != b.rows ==> d.rows[..|d.rows| - 1] == b.rows;
    }
  }

  lemma {:induction false} PicturesAreTold(b: Builder, candidates: seq<Candidate<Content>>)
    requires b.rows == [] && b.imageTries == 0 && b.imageBytes == 0 && Only(b.raised, IMAGE_CODES) == []
    requires forall c :: c in candidates ==> Parsed(c)
    ensures PicturesTold(Walk(b, candidates), AllImages(Walk(b, candidates).rows), Pictures(candidates))
    decreases |candidates|
  {
    if candidates != [] {
      hide Process, PicturesTold;
      PicturesAreTold(b, candidates[1..]);
      MessageOfPictures(Walk(b, candidates[1..]), candidates[0], Pictures(candidates[1..]));
    }
  }

  /**
    The images of a snapshot, row after row, are the bytes and types of the messages' own images:
    of the first eight, those that could be read, of a named type and within 5 MiB, as long as
    they fit into 16 MiB together. Each of the others is reported, in order, under its own cause.
  */
  lemma ImagesAreTheFirstThatFit(b: Builder, candidates: seq<Candidate<Content>>)
    requires b.rows == [] && b.imageTries == 0 && b.imageBytes == 0 && Only(b.raised, IMAGE_CODES) == []
    requires forall c :: c in candidates ==> Parsed(c)
    ensures var d := Walk(b, candidates);
      && AllImages(d.rows) == Carried(Pictures(candidates))
      && Only(d.raised, IMAGE_CODES) == ImageIssues(Pictures(candidates))
  {
    PicturesAreTold(b, candidates);
    hide Walk, Pictures, Carried, ImageIssues, AllImages, Only;
  }

  // ---------------------------------------------------------------- the videos of a snapshot

  /** All videos of the messages that were not withdrawn, oldest message first. */
  function Films(candidates: seq<Candidate<Content>>): seq<VideoRef>
    decreases |candidates|
  {
    if candidates == [] then []
    else
      var c := candidates[0];
      Films(candidates[1..]) + if c.message.content.deleted && !c.isTrigger then [] else c.message.content.videos
  }

  /** Why the video in this place is left out, after others of so many bytes, if it is. */
  function VideoIssue(place: nat, used: nat, ref: VideoRef): Option<Code> {
    if place > 2 then Some(VideoLimit)
    else if ref.duration > 600000 then Some(VideoTooLong)
    else if ref.fetch.Failing? then Some(VideoUnreadable)
    else if |ref.fetch.data| > 67108864 then Some(VideoTooLarge)
    else if ref.fetch.mediaType == "" then Some(VideoType)
    else if used + |ref.fetch.data| > 100663296 then Some(VideoLimit)
    else None
  }

  /** Of the first two, those of ten minutes, 64 MiB and a known type that still fit into 96 MiB together. */
  function Aired(all: seq<VideoRef>): seq<Video>
    decreases |all|
  {
    if all == [] then []
    else
      var before, last := Aired(all[..|all| - 1]), all[|all| - 1];
      if VideoIssue(|all|, FilmSize(before), last).None?
      then before + [Video(last.fetch.mediaType, last.fetch.data, last.duration, Utf8Prefix(last.name, 256))]
      else before
  }

  function VideoIssues(all: seq<VideoRef>): seq<Code>
    decreases |all|
  {
    if all == [] then []
    else
      var issue := VideoIssue(|all|, FilmSize(Aired(all[..|all| - 1])), all[|all| - 1]);
      VideoIssues(all[..|all| - 1]) + if issue.Some? then [issue.value] else []
  }

  ghost predicate FilmsTold(b: Builder, videos: seq<Video>, all: seq<VideoRef>) {
    && videos == Aired(all)
    && b.videoTries == (if |all| <= 2 then |all| else 2)
    && b.videoBytes == FilmSize(Aired(all))
    && Only(b.raised, VIDEO_CODES) == VideoIssues(all)
  }

  lemma FilmsByIssue(f: Filmed, ref: VideoRef)
    ensures var g, issue := TakeVideo(f, ref), VideoIssue(f.b.videoTries + 1, f.b.videoBytes, ref);
      && g.b.rows == f.b.rows
      && g.b.videoTries == (if f.b.videoTries >= 2 then f.b.videoTries else f.b.videoTries + 1)
      && g.b.raised == f.b.raised + (if issue.Some? then [issue.value] else [])
      && (issue.Some? ==> g.videos == f.videos && g.b.videoBytes == f.b.videoBytes && issue.value in VIDEO_CODES)
      && (issue.None? ==>
            ref.fetch.Bytes? && g.b.videoBytes == f.b.videoBytes + |ref.fetch.data|
            && g.videos == f.videos
                 + [Video(ref.fetch.mediaType, ref.fetch.data, ref.duration, Utf8Prefix(ref.name, 256))])
  {
    hide Utf8Prefix;
  }

  lemma AiredOneMore(all: seq<VideoRef>, ref: VideoRef)
    ensures var issue := VideoIssue(|all| + 1, FilmSize(Aired(all)), ref);
      && Aired(all + [ref])
         == Aired(all) + (if issue.None?
                          then [Video(ref.fetch.mediaType, ref.fetch.data, ref.duration, Utf8Prefix(ref.name, 256))]
                          else [])
      && VideoIssues(all + [ref]) == VideoIssues(all) + (if issue.Some? then [issue.value] else [])
  {
    hide FilmSize, Utf8Prefix, VideoIssue;
    assert (all + [ref])[..|all|] == all && (all + [ref])[|all|] == ref;
  }

  lemma FilmOfMore(videos: seq<Video>, video: Video)
    ensures FilmSize(videos + [video]) == FilmSize(videos) + |video.data|
  {
    assert (videos + [video])[..|videos|] == videos;
  }

  lemma OneFilm(f: Filmed, earlier: seq<Video>, all: seq<VideoRef>, ref: VideoRef)
    requires FilmsTold(f.b, earlier + f.videos, all)
    ensures var g := TakeVideo(f, ref); FilmsTold(g.b, earlier + g.videos, all + [ref]) && g.b.rows == f.b.rows
  {
    hide Only, FilmSize, TakeVideo, VideoIssue, Aired, VideoIssues, Utf8Prefix;
    var g := TakeVideo(f, ref);
    var issue := VideoIssue(|all| + 1, FilmSize(Aired(all)), ref);
    FilmsByIssue(f, ref);
    SameVideoIssue(|all|, f.b.videoTries, f.b.videoBytes, ref);
    AiredOneMore(all, ref);
    assert Aired(all) + [] == Aired(all) && VideoIssues(all) + [] == VideoIssues(all) && f.b.raised + [] == f.b.raised;
    if issue.Some? {
      OnlyOneMore(f.b.raised, issue.value, VIDEO_CODES);
    } else {
      var video := Video(ref.fetch.mediaType, ref.fetch.data, ref.duration, Utf8Prefix(ref.name, 256));
      assert earlier + g.videos == earlier + f.videos + [video];
      FilmOfMore(Aired(all), video);
    }
  }

  lemma SameVideoIssue(places: nat, tries: nat, used: nat, ref: VideoRef)
    requires tries == if places <= 2 then places else 2
    ensures VideoIssue(places + 1, used, ref) == VideoIssue(tries + 1, used, ref)
    ensures VideoIssue(places + 1, used, ref).None? ==> ref.fetch.Bytes?
  {
  }

  lemma {:induction false} MoreFilms(b: Builder, earlier: seq<Video>, all: seq<VideoRef>, refs: seq<VideoRef>)
    requires FilmsTold(b, earlier, all)
    ensures var f := TakeVideos(b, refs);
      && FilmsTold(f.b, earlier + f.videos, all + refs) && f.b.rows == b.rows
    decreases |refs|
  {
    hide FilmsTold, TakeVideo;
    if refs == [] {
      assert all + refs == all && earlier + [] == earlier;
    } else {
      var front, last := refs[..|refs| - 1], refs[|refs| - 1];
      MoreFilms(b, earlier, all, front);
      OneFilm(TakeVideos(b, front), earlier, all + front, last);
      assert all + front + [last] == all + refs;
    }
  }

  predicate SameFilms(b: Builder, c: Builder) {
    c.videoTries == b.videoTries && c.videoBytes == b.videoBytes && c.rows == b.rows
    && Only(c.raised, VIDEO_CODES) == Only(b.raised, VIDEO_CODES)
  }

  lemma RaisesNoFilm(b: Builder, code: Code)
    requires code !in VIDEO_CODES
    ensures Only(b.raised + [code], VIDEO_CODES) == Only(b.raised, VIDEO_CODES)
  {
    OnlyOneMore(b.raised, code, VIDEO_CODES);
  }

  lemma TextTakesNoFilms(b: Builder, text: string)
    ensures SameFilms(b, TakeText(b, text).b)
  {
    hide Only;
    RaisesNoFilm(b, TextLimit);
  }

  lemma ParsingTakesNoFilms(b: Builder, c: Candidate<Content>)
    requires Parsed(c)
    ensures SameFilms(b, Noted(b, c.message.content))
  {
    OnlyBoth(b.raised, c.message.content.issues, VIDEO_CODES);
    NoneOfAKind(c.message.content.issues, VIDEO_CODES);
  }

  lemma ImageTakesNoFilm(p: Pictured, fetch: Fetch)
    ensures SameFilms(p.b, TakeImage(p, fetch).b)
  {
    hide Only;
    var q := TakeImage(p, fetch);
    if q.b.raised != p.b.raised { RaisesNoFilm(p.b, q.b.raised[|p.b.raised|]); }
  }

  lemma {:induction false} ImagesTakeNoFilms(b: Builder, fetches: seq<Fetch>)
    ensures SameFilms(b, TakeImages(b, fetches).b)
    decreases |fetches|
  {
    hide Only, TakeImage;
    if fetches != [] {
      ImagesTakeNoFilms(b, fetches[..|fetches| - 1]);
      ImageTakesNoFilm(TakeImages(b, fetches[..|fetches| - 1]), fetches[|fetches| - 1]);
    }
  }

  lemma FilmsStay(b: Builder, c: Builder, videos: seq<Video>, all: seq<VideoRef>)
    requires FilmsTold(b, videos, all) && SameFilms(b, c)
    ensures FilmsTold(c, videos, all) && c.rows == b.rows
  {
  }

  lemma RowsTellNoFilms(b: Builder, rows: seq<Row>, videos: seq<Video>, all: seq<VideoRef>)
    requires FilmsTold(b, videos, all)
    ensures FilmsTold(b.(rows := rows), videos, all)
  {
  }

  lemma MessageOfFilms(b: Builder, c: Candidate<Content>, all: seq<VideoRef>)
    requires FilmsTold(b, AllVideos(b.rows), all) && Parsed(c)
    ensures var d := Process(b, c);
      FilmsTold(d, AllVideos(d.rows), all + if Withdrawn(c) then [] else c.message.content.videos)
  {
    hide TakeText, TakeImages, TakeVideos, FilmsTold, SameFilms;
    if Withdrawn(c) {
      assert all + [] == all;
    } else {
      var noted := Noted(b, c.message.content);
      ParsingTakesNoFilms(b, c);
      FilmsStay(b, noted, AllVideos(b.rows), all);
      var shown := TakeText(noted, TextOf(c));
      TextTakesNoFilms(noted, TextOf(c));
      FilmsStay(noted, shown.b, AllVideos(b.rows), all);
      var pictured := TakeImages(shown.b, c.message.content.images);
      ImagesTakeNoFilms(shown.b, c.message.content.images);
      FilmsStay(shown.b, pictured.b, AllVideos(b.rows), all);
      MoreFilms(pictured.b, AllVideos(b.rows), all, c.message.content.videos);
      var filmed := TakeVideos(pictured.b, c.message.content.videos);
      var d := Process(b, c);
      RowsTellNoFilms(filmed.b, d.rows, AllVideos(b.rows) + filmed.videos, all + c.message.content.videos);
      assert AllVideos(b.rows) + [] == AllVideos(b.rows);
      assert d.rows != b.rows ==> d.rows[..|d.rows| - 1] == b.rows;
    }
  }

  lemma {:induction false} FilmsAreTold(b: Builder, candidates: seq<Candidate<Content>>)
    requires b.rows == [] && b.videoTries == 0 && b.videoBytes == 0 && Only(b.raised, VIDEO_CODES) == []
    requires forall c :: c in candidates ==> Parsed(c)
    ensures FilmsTold(Walk(b, candidates), AllVideos(Walk(b, candidates).rows), Films(candidates))
    decreases |candidates|
  {
    if candidates != [] {
      hide Process, FilmsTold;
      FilmsAreTold(b, candidates[1..]);
      MessageOfFilms(Walk(b, candidates[1..]), candidates[0], Films(candidates[1..]));
    }
  }

  /**
    The videos of a snapshot, row after row, are the bytes and types of the messages' own videos
    with their durations and cut names: of the first two, those of at most ten minutes that could
    be read, of a known type and within 64 MiB, as long as they fit into 96 MiB together. Each of
    the others is reported, in order, under its own cause.
  */
  lemma VideosAreTheFirstThatFit(b: Builder, candidates: seq<Candidate<Content>>)
    requires b.rows == [] && b.videoTries == 0 && b.videoBytes == 0 && Only(b.raised, VIDEO_CODES) == []
    requires forall c :: c in candidates ==> Parsed(c)
    ensures var d := Walk(b, candidates);
      && AllVideos(d.rows) == Aired(Films(candidates))
      && Only(d.raised, VIDEO_CODES) == VideoIssues(Films(candidates))
  {
    FilmsAreTold(b, candidates);
    hide Walk, Films, Aired, VideoIssues, AllVideos, Only;
  }

  // ---------------------------------------------------------------- words, rows and the status

  /** The longest beginning in whole characters that fits into `room` bytes. */
  predicate FitsBest(shown: string, whole: string, room: int) {
    && shown <= whole && (Size(shown) <= room || shown == "")
    && (forall n :: |shown| < n <= |whole| ==> Size(whole[..n]) > room)
  }

  lemma {:induction false} LongerIsLarger(s: string, n: nat)
    requires 0 < n <= |s|
    ensures 0 < Size(s[..n]) <= Size(s)
    decreases |s|
  {
    if n < |s| {
      LongerIsLarger(s[..|s| - 1], n);
      assert s[..|s| - 1][..n] == s[..n];
    } else {
      assert s[..n] == s;
    }
  }

  lemma TextFitsBest(b: Builder, text: string)
    ensures var shown := TakeText(b, text);
      && FitsBest(shown.text, text, 65536 - b.text)
      && (shown.text == text <==> shown.b.raised == b.raised)
      && shown.b.raised == b.raised + (if shown.text == text then [] else [TextLimit])
  {
    forall n | 0 < n <= |text| ensures 0 < Size(text[..n]) <= Size(text) { LongerIsLarger(text, n); }
    assert text[..|text|] == text;
    hide Size;
  }

  /** A video that is not carried counts as a failure of its message. */
  lemma {:induction false} FailedIffMissing(b: Builder, refs: seq<VideoRef>)
    ensures var f := TakeVideos(b, refs); |f.videos| <= |refs| && (f.failed <==> |f.videos| < |refs|)
    decreases |refs|
  {
    hide DownloadVideo;
    if refs != [] { FailedIffMissing(b, refs[..|refs| - 1]); }
  }

  /** What a row shows of its message beside the words shown before. */
  ghost predicate ShownOf(b: Builder, c: Candidate<Content>, row: Row) {
    && row.source == c
    && FitsBest(row.text, if c.isTrigger then "" else c.message.content.text, 65536 - TextSize(b.rows))
    && |row.videos| <= |c.message.content.videos|
    && (row.placeholder <==> row.text == "" && |row.videos| < |c.message.content.videos|)
  }

  lemma RowShows(b: Builder, c: Candidate<Content>) returns (row: Row)
    requires Accounted(b, [], [], 0) && !Withdrawn(c)
    ensures ShownOf(b, c, row)
    ensures Process(b, c).rows
         == b.rows + if row.text == "" && !row.placeholder && row.images == [] && row.videos == [] then [] else [row]
  {
    hide TakeText, TakeImages, TakeVideos, FitsBest, TextSize, AllImages, AllVideos;
    var content := c.message.content;
    var noted := Noted(b, content);
    var shown := TakeText(noted, TextOf(c));
    TextFitsBest(noted, TextOf(c));
    assert noted.text == TextSize(b.rows);
    var pictured := TakeImages(shown.b, content.images);
    var filmed := TakeVideos(pictured.b, content.videos);
    FailedIffMissing(pictured.b, content.videos);
    RowsStay(noted, TextOf(c), content.images, content.videos);
    row := Row(c, shown.text, pictured.images, filmed.videos, filmed.failed && shown.text == "");
  }

  /**
    What a message adds to the snapshot. A withdrawn one adds nothing. Of the trigger no words are
    shown, of any other message the longest beginning that fits beside the words shown before, of
    64 KiB in all. A row without words says so with the placeholder exactly if a video of its
    message is missing; a message with nothing to show has no row.
  */
  lemma MessageIsShown(b: Builder, c: Candidate<Content>)
    requires Accounted(b, [], [], 0)
    ensures var d := Process(b, c);
      if c.message.content.deleted && !c.isTrigger then d == b
      else
        exists row ::
          ShownOf(b, c, row)
          && d.rows == b.rows + (if row.text == "" && !row.placeholder && row.images == [] && row.videos == []
                                 then [] else [row])
  {
    if !Withdrawn(c) {
      var row := RowShows(b, c);
      hide ShownOf, Process;
    }
  }

  lemma RowsStay(b: Builder, text: string, fetches: seq<Fetch>, refs: seq<VideoRef>)
    ensures var shown := TakeText(b, text).b; var pictured := TakeImages(shown, fetches).b;
      shown.rows == b.rows && pictured.rows == b.rows && TakeVideos(pictured, refs).b.rows == b.rows
  {
    TextReported(b, text);
    ImagesReported(TakeText(b, text).b, fetches);
    VideosReported(TakeImages(TakeText(b, text).b, fetches).b, refs);
  }

  // ---------------------------------------------------------------- every row, and the whole thread

  lemma {:induction false} PartOf<T(!new)>(s: seq<T>, t: seq<T>, x: T)
    requires Subsequence(s, t) && x in s
    ensures x in t
    decreases |t|
  {
    if t != [] {
      var front, last := t[..|t| - 1], t[|t| - 1];
      if Subsequence(s, front) {
        PartOf(s, front, x);
      } else if x != last {
        PartOf(s[..|s| - 1], front, x);
      }
    }
  }

  lemma {:induction false} GottenWereFetched(fetches: seq<Fetch>, image: Image)
    requires image in Gotten(fetches)
    ensures Bytes(image.mediaType, image.data) in fetches
  {
    if fetches != [] && image in Gotten(fetches[..|fetches| - 1]) {
      GottenWereFetched(fetches[..|fetches| - 1], image);
    }
  }

  lemma {:induction false} GottenWereFilmed(refs: seq<VideoRef>, video: Video)
    requires video in GottenVideos(refs)
    ensures exists ref :: ref in refs && GoodVideo(ref) && IsVideoOf(video, ref)
  {
    var front, last := refs[..|refs| - 1], refs[|refs| - 1];
    if video in GottenVideos(front) {
      GottenWereFilmed(front, video);
    } else {
      VideoDownloads(last);
    }
  }

  /**
    Every row belongs to one of the messages found, not withdrawn, and shows a beginning of its own
    words, none if it is the trigger, and nothing but bytes of its own images and videos.
  */
  lemma RowsShowTheirOwn(b: Builder, candidates: seq<Candidate<Content>>, row: Row)
    requires b.rows == [] && row in Walk(b, candidates).rows
    requires forall c :: c in candidates ==> Parsed(c)
    ensures var content := row.source.message.content;
      && row.source in candidates && !(content.deleted && !row.source.isTrigger)
      && row.text <= (if row.source.isTrigger then "" else content.text)
      && (forall image :: image in row.images ==> Bytes(image.mediaType, image.data) in content.images)
      && (forall video :: video in row.videos ==>
            exists ref :: ref in content.videos && GoodVideo(ref) && IsVideoOf(video, ref))
  {
    NothingIsLostInSilence(b, candidates);
    var rows, content := Walk(b, candidates).rows, row.source.message.content;
    var k :| 0 <= k < |rows| && rows[k] == row;
    assert Sources(rows)[k] == row.source;
    PartOf(Sources(rows), OldestFirst(candidates), row.source);
    assert Honest(row);
    forall image | image in row.images ensures Bytes(image.mediaType, image.data) in content.images {
      PartOf(row.images, Gotten(content.images), image);
      GottenWereFetched(content.images, image);
    }
    forall video | video in row.videos
      ensures exists ref :: ref in content.videos && GoodVideo(ref) && IsVideoOf(video, ref)
    {
      PartOf(row.videos, GottenVideos(content.videos), video);
      GottenWereFilmed(content.videos, video);
    }
  }

  /** Images that raised no report are all there, byte for byte. */
  lemma {:induction false} UnreportedImagesAreWhole(all: seq<Fetch>)
    requires ImageIssues(all) == []
    ensures |Carried(all)| == |all|
    ensures forall i :: 0 <= i < |all| ==>
      all[i].Bytes? && Carried(all)[i] == Image(all[i].mediaType, all[i].data)
  {
    if all != [] { UnreportedImagesAreWhole(all[..|all| - 1]); }
  }

  lemma {:induction false} UnreportedVideosAreWhole(all: seq<VideoRef>)
    requires VideoIssues(all) == []
    ensures |Aired(all)| == |all|
    ensures forall i :: 0 <= i < |all| ==>
      all[i].fetch.Bytes? && Aired(all)[i].data == all[i].fetch.data && Aired(all)[i].duration == all[i].duration
      && Aired(all)[i].mediaType == all[i].fetch.mediaType
  {
    hide Utf8Prefix;
    if all != [] { UnreportedVideosAreWhole(all[..|all| - 1]); }
  }

  // ---------------------------------------------------------------- truncation

  const CUTS: set<Code> :=
    {TextLimit, ImageLimit, ImageTooLarge, TotalImageLimit, VideoLimit, VideoTooLarge, VideoTooLong}

  /** Between two builders the snapshot became truncated exactly if some limit was reported. */
  ghost predicate CutTold(b: Builder, c: Builder) {
    && b.raised <= c.raised
    && (c.truncated <==> b.truncated || exists code :: code in c.raised[|b.raised|..] && code in CUTS)
  }

  lemma CutOn(b: Builder, c: Builder, d: Builder)
    requires CutTold(b, c) && CutTold(c, d)
    ensures CutTold(b, d)
  {
    assert d.raised[|b.raised|..] == c.raised[|b.raised|..] + d.raised[|c.raised|..];
  }

  lemma OneReportCuts(b: Builder, c: Builder)
    requires if |c.raised| == |b.raised| then c.raised == b.raised && c.truncated == b.truncated
             else |c.raised| == |b.raised| + 1 && c.raised[..|b.raised|] == b.raised
                  && (c.truncated <==> b.truncated || c.raised[|b.raised|] in CUTS)
    ensures CutTold(b, c)
  {
    assert |c.raised| == |b.raised| + 1 ==> c.raised[|b.raised|..] == [c.raised[|b.raised|]];
  }

  lemma TextCuts(b: Builder, text: string)
    ensures CutTold(b, TakeText(b, text).b)
  {
    hide Utf8Prefix, CutTold;
    OneReportCuts(b, TakeText(b, text).b);
  }

  lemma ImageCuts(p: Pictured, fetch: Fetch)
    ensures CutTold(p.b, TakeImage(p, fetch).b)
  {
    hide CutTold;
    OneReportCuts(p.b, TakeImage(p, fetch).b);
  }

  lemma VideoCuts(f: Filmed, ref: VideoRef)
    ensures CutTold(f.b, TakeVideo(f, ref).b)
  {
    hide Utf8Prefix, CutTold;
    OneReportCuts(f.b, TakeVideo(f, ref).b);
  }

  lemma {:induction false} ImagesCut(b: Builder, fetches: seq<Fetch>)
    ensures CutTold(b, TakeImages(b, fetches).b)
    decreases |fetches|
  {
    hide TakeImage, CutTold;
    NothingIsCut(b);
    if fetches != [] {
      var p := TakeImages(b, fetches[..|fetches| - 1]);
      ImagesCut(b, fetches[..|fetches| - 1]);
      ImageCuts(p, fetches[|fetches| - 1]);
      CutOn(b, p.b, TakeImages(b, fetches).b);
    }
  }

  lemma {:induction false} VideosCut(b: Builder, refs: seq<VideoRef>)
    ensures CutTold(b, TakeVideos(b, refs).b)
    decreases |refs|
  {
    hide TakeVideo, CutTold;
    NothingIsCut(b);
    if refs != [] {
      var f := TakeVideos(b, refs[..|refs| - 1]);
      VideosCut(b, refs[..|refs| - 1]);
      VideoCuts(f, refs[|refs| - 1]);
      CutOn(b, f.b, TakeVideos(b, refs).b);
    }
  }

  lemma MessageCuts(b: Builder, c: Candidate<Content>)
    requires Parsed(c)
    ensures CutTold(b, Process(b, c))
  {
    if !Withdrawn(c) {
      hide TakeText, TakeImages, TakeVideos, CutTold;
      var content := c.message.content;
      var noted := Noted(b, content);
      ParsingCuts(b, c);
      var shown := TakeText(noted, TextOf(c));
      TextCuts(noted, TextOf(c));
      var pictured := TakeImages(shown.b, content.images);
      ImagesCut(shown.b, content.images);
      var filmed := TakeVideos(pictured.b, content.videos);
      VideosCut(pictured.b, content.videos);
      CutOn(b, noted, shown.b);
      CutOn(b, shown.b, pictured.b);
      CutOn(b, pictured.b, filmed.b);
      RowsCutNothing(b, filmed.b, Process(b, c).rows);
    } else {
      NothingIsCut(b);
    }
  }

  lemma ParsingCuts(b: Builder, c: Candidate<Content>)
    requires Parsed(c)
    ensures CutTold(b, Noted(b, c.message.content))
  {
  }

  lemma RowsCutNothing(b: Builder, c: Builder, rows: seq<Row>)
    requires CutTold(b, c)
    ensures CutTold(b, c.(rows := rows))
  {
  }

  lemma NothingIsCut(b: Builder)
    ensures CutTold(b, b)
  {
  }

  /** A snapshot is marked truncated exactly if it was to begin with or some limit was reported. */
  lemma {:induction false} TruncatedIffALimitWasReported(b: Builder, candidates: seq<Candidate<Content>>)
    requires forall c :: c in candidates ==> Parsed(c)
    ensures CutTold(b, Walk(b, candidates))
    decreases |candidates|
  {
    hide Process, CutTold;
    if candidates == [] {
      NothingIsCut(b);
    } else {
      TruncatedIffALimitWasReported(b, candidates[1..]);
      MessageCuts(Walk(b, candidates[1..]), candidates[0]);
      CutOn(b, Walk(b, candidates[1..]), Walk(b, candidates));
    }
  }
}
