/**
  How a snapshot crosses the wire: a header that describes every image and video by index, then
  their bytes in chunks. The receiving side here accepts only a stream that keeps the promised
  framing, and rebuilds the snapshot from what it accepted.
*/
module ContextFraming {
  import opened Options
  import opened ContextAssembly
  import opened ContextAssemblers

  const CHUNK := 64 * 1024

  type Data = seq<Byte>

  datatype ImageDescriptor = ImageDescriptor(index: nat, mediaType: string, size: nat)
  datatype VideoDescriptor = VideoDescriptor(index: nat, mediaType: string, size: nat, duration: nat, name: string)
  datatype Described = Described(
    number: nat, authorType: string, text: string, images: seq<ImageDescriptor>, videos: seq<VideoDescriptor>)

  datatype Chunk = Chunk(video: bool, index: nat, offset: nat, data: Data, final: bool)

  // ---------------------------------------------------------------- what is sent

  function DescribeImages(images: seq<Image>, base: nat): seq<ImageDescriptor> {
    seq(|images|, i requires 0 <= i < |images| => ImageDescriptor(base + i, images[i].mediaType, |images[i].data|))
  }

  function DescribeVideos(videos: seq<Video>, base: nat): seq<VideoDescriptor> {
    seq(|videos|, i requires 0 <= i < |videos| =>
      VideoDescriptor(base + i, videos[i].mediaType, |videos[i].data|, videos[i].duration, videos[i].name))
  }

  function ImageData(images: seq<Image>): seq<Data> { seq(|images|, i requires 0 <= i < |images| => images[i].data) }

  function VideoData(videos: seq<Video>): seq<Data> { seq(|videos|, i requires 0 <= i < |videos| => videos[i].data) }

  /** The bytes of every image of the snapshot, in order. */
  function AllImageData(messages: seq<Shared>): seq<Data> {
    if messages == [] then [] else AllImageData(messages[..|messages| - 1]) + ImageData(messages[|messages| - 1].images)
  }

  function AllVideoData(messages: seq<Shared>): seq<Data> {
    if messages == [] then [] else AllVideoData(messages[..|messages| - 1]) + VideoData(messages[|messages| - 1].videos)
  }

  function Describe(m: Shared, images: nat, videos: nat): Described {
    Described(m.number, m.authorType, m.text, DescribeImages(m.images, images), DescribeVideos(m.videos, videos))
  }

  function Header(messages: seq<Shared>): seq<Described> {
    if messages == [] then []
    else
      var front := messages[..|messages| - 1];
      Header(front) + [Describe(messages[|messages| - 1], |AllImageData(front)|, |AllVideoData(front)|)]
  }

  function ChunksFrom(video: bool, index: nat, data: Data, offset: nat): seq<Chunk>
    requires offset <= |data|
    decreases |data| - offset
  {
    if offset == |data| then []
    else
      var end := if offset + CHUNK > |data| then |data| else offset + CHUNK;
      [Chunk(video, index, offset, data[offset..end], end == |data|)] + ChunksFrom(video, index, data, end)
  }

  function StreamFrom(video: bool, all: seq<Data>, from: nat): seq<Chunk>
    requires from <= |all|
    decreases |all| - from
  {
    if from == |all| then [] else ChunksFrom(video, from, all[from], 0) + StreamFrom(video, all, from + 1)
  }

  /** All image chunks, then all video chunks. */
  function Stream(images: seq<Data>, videos: seq<Data>): seq<Chunk> {
    StreamFrom(false, images, 0) + StreamFrom(true, videos, 0)
  }

  // ---------------------------------------------------------------- what is received

  /** Bytes received so far for every described image or video, against the sizes promised. */
  datatype Track = Track(sizes: seq<nat>, got: seq<Data>) {
    ghost predicate Valid() { |sizes| == |got| }
    predicate DoneBefore(n: nat)
      requires n <= |sizes| == |got|
    {
      forall i :: 0 <= i < n ==> |got[i]| == sizes[i]
    }
  }

  /** The next bytes of one item: in index order, contiguous, at most 64 KiB, and `final` exactly with the last. */
  function AcceptOn(t: Track, c: Chunk): Option<Track>
    requires t.Valid()
  {
    if c.index < |t.sizes| && t.DoneBefore(c.index) && c.offset == |t.got[c.index]|
       && 0 < |c.data| <= 65536 && c.offset + |c.data| <= t.sizes[c.index]
       && c.final == (c.offset + |c.data| == t.sizes[c.index])
    then Some(t.(got := t.got[c.index := t.got[c.index] + c.data]))
    else None
  }

  datatype Receiver = Receiver(images: Track, videos: Track) {
    ghost predicate Valid() { images.Valid() && videos.Valid() }
  }

  /** No video before every image is complete, and no image after a video has begun. */
  function Accept(r: Receiver, c: Chunk): (out: Option<Receiver>)
    requires r.Valid()
    ensures out.Some? ==> out.value.Valid()
  {
    if c.video then
      if !r.images.DoneBefore(|r.images.sizes|) then None
      else match AcceptOn(r.videos, c) case None => None case Some(t) => Some(r.(videos := t))
    else
      if exists i :: 0 <= i < |r.videos.got| && r.videos.got[i] != [] then None
      else match AcceptOn(r.images, c) case None => None case Some(t) => Some(r.(images := t))
  }

  function Feed(r: Receiver, chunks: seq<Chunk>): (out: Option<Receiver>)
    requires r.Valid()
    ensures out.Some? ==> out.value.Valid()
    decreases |chunks|
  {
    if chunks == [] then Some(r)
    else match Accept(r, chunks[0]) case None => None case Some(next) => Feed(next, chunks[1..])
  }

  function Sizes(images: seq<ImageDescriptor>): seq<nat> {
    seq(|images|, i requires 0 <= i < |images| => images[i].size)
  }

  function VideoSizes(videos: seq<VideoDescriptor>): seq<nat> {
    seq(|videos|, i requires 0 <= i < |videos| => videos[i].size)
  }

  function AllSizes(header: seq<Described>): seq<nat> {
    if header == [] then [] else AllSizes(header[..|header| - 1]) + Sizes(header[|header| - 1].images)
  }

  function AllVideoSizes(header: seq<Described>): seq<nat> {
    if header == [] then [] else AllVideoSizes(header[..|header| - 1]) + VideoSizes(header[|header| - 1].videos)
  }

  function Nothing(n: nat): (d: seq<Data>)
    ensures |d| == n && forall i :: 0 <= i < n ==> d[i] == []
  {
    seq(n, _ => [])
  }

  function Expecting(header: seq<Described>): (r: Receiver)
    ensures r.Valid()
  {
    var images, videos := AllSizes(header), AllVideoSizes(header);
    Receiver(Track(images, Nothing(|images|)), Track(videos, Nothing(|videos|)))
  }

  predicate Indexed(m: Described, r: Receiver) {
    && (forall i :: 0 <= i < |m.images| ==> m.images[i].index < |r.images.got|)
    && (forall i :: 0 <= i < |m.videos| ==> m.videos[i].index < |r.videos.got|)
  }

  /** A described message with its bytes put back by index. */
  function Rebuild(m: Described, r: Receiver): Shared
    requires Indexed(m, r)
  {
    Shared(m.number, m.authorType, m.text,
           seq(|m.images|, i requires 0 <= i < |m.images| =>
             Image(m.images[i].mediaType, r.images.got[m.images[i].index])),
           seq(|m.videos|, i requires 0 <= i < |m.videos| =>
             Video(m.videos[i].mediaType, r.videos.got[m.videos[i].index], m.videos[i].duration, m.videos[i].name)))
  }

  function RebuildAll(header: seq<Described>, r: Receiver): (messages: seq<Shared>)
    requires forall i :: 0 <= i < |header| ==> Indexed(header[i], r)
    ensures |messages| == |header| && forall i :: 0 <= i < |header| ==> messages[i] == Rebuild(header[i], r)
  {
    seq(|header|, i requires 0 <= i < |header| => Rebuild(header[i], r))
  }

  /** The snapshot the receiving side ends up with, if it accepts the whole stream. */
  function Receive(header: seq<Described>, chunks: seq<Chunk>): Option<seq<Shared>> {
    match Feed(Expecting(header), chunks)
    case None => None
    case Some(r) =>
      if forall i :: 0 <= i < |header| ==> Indexed(header[i], r) then Some(RebuildAll(header, r)) else None
  }

  // ---------------------------------------------------------------- the header

  lemma {:induction false} HeaderImageSizes(messages: seq<Shared>)
    ensures |AllSizes(Header(messages))| == |AllImageData(messages)|
    ensures forall k :: 0 <= k < |AllImageData(messages)| ==>
      AllSizes(Header(messages))[k] == |AllImageData(messages)[k]|
  {
    hide AllVideoData, AllVideoSizes, DescribeVideos;
    if messages != [] {
      HeaderImageSizes(messages[..|messages| - 1]);
      var header := Header(messages);
      assert header[..|header| - 1] == Header(messages[..|messages| - 1]);
    }
  }

  lemma {:induction false} HeaderVideoSizes(messages: seq<Shared>)
    ensures |AllVideoSizes(Header(messages))| == |AllVideoData(messages)|
    ensures forall k :: 0 <= k < |AllVideoData(messages)| ==>
      AllVideoSizes(Header(messages))[k] == |AllVideoData(messages)[k]|
  {
    hide AllImageData, AllSizes, DescribeImages;
    if messages != [] {
      HeaderVideoSizes(messages[..|messages| - 1]);
      var header := Header(messages);
      assert header[..|header| - 1] == Header(messages[..|messages| - 1]);
    }
  }

  lemma {:induction false} HeaderCount(messages: seq<Shared>)
    ensures |Header(messages)| == |messages|
  {
    if messages != [] {
      HeaderCount(messages[..|messages| - 1]);
    }
  }

  /** The k-th size announced is the length of the k-th item's bytes: indexes are positions. */
  lemma HeaderSizes(messages: seq<Shared>)
    ensures |Header(messages)| == |messages|
    ensures |AllSizes(Header(messages))| == |AllImageData(messages)|
    ensures |AllVideoSizes(Header(messages))| == |AllVideoData(messages)|
    ensures forall k :: 0 <= k < |AllImageData(messages)| ==>
      AllSizes(Header(messages))[k] == |AllImageData(messages)[k]|
    ensures forall k :: 0 <= k < |AllVideoData(messages)| ==>
      AllVideoSizes(Header(messages))[k] == |AllVideoData(messages)[k]|
  {
    HeaderCount(messages);
    HeaderImageSizes(messages);
    HeaderVideoSizes(messages);
  }

  lemma DataGrows(messages: seq<Shared>, n: nat)
    requires n < |messages|
    ensures AllImageData(messages[..n + 1]) == AllImageData(messages[..n]) + ImageData(messages[n].images)
    ensures AllVideoData(messages[..n + 1]) == AllVideoData(messages[..n]) + VideoData(messages[n].videos)
    ensures Header(messages[..n + 1]) ==
            Header(messages[..n])
            + [Describe(messages[n], |AllImageData(messages[..n])|, |AllVideoData(messages[..n])|)]
  {
    assert messages[..n + 1][..n] == messages[..n];
  }

  lemma {:induction false} DataPrefix(messages: seq<Shared>, n: nat)
    requires n <= |messages|
    ensures AllImageData(messages[..n]) <= AllImageData(messages)
    ensures AllVideoData(messages[..n]) <= AllVideoData(messages)
    ensures Header(messages[..n]) <= Header(messages)
    decreases |messages| - n
  {
    if n < |messages| {
      DataGrows(messages, n);
      DataPrefix(messages, n + 1);
    } else {
      assert messages[..n] == messages;
    }
  }

  lemma ImagesPutBack(m: Shared, base: nat, got: seq<Data>)
    requires base + |m.images| <= |got| && got[base..base + |m.images|] == ImageData(m.images)
    ensures var d := DescribeImages(m.images, base);
      && (forall i :: 0 <= i < |d| ==> d[i].index < |got|)
      && seq(|d|, i requires 0 <= i < |d| && d[i].index < |got| => Image(d[i].mediaType, got[d[i].index])) == m.images
  {
    forall i | 0 <= i < |m.images| ensures got[base + i] == m.images[i].data {
      assert got[base..base + |m.images|][i] == got[base + i];
    }
  }

  lemma VideosPutBack(m: Shared, base: nat, got: seq<Data>)
    requires base + |m.videos| <= |got| && got[base..base + |m.videos|] == VideoData(m.videos)
    ensures var d := DescribeVideos(m.videos, base);
      && (forall i :: 0 <= i < |d| ==> d[i].index < |got|)
      && seq(|d|, i requires 0 <= i < |d| && d[i].index < |got| =>
               Video(d[i].mediaType, got[d[i].index], d[i].duration, d[i].name)) == m.videos
  {
    forall i | 0 <= i < |m.videos| ensures got[base + i] == m.videos[i].data {
      assert got[base..base + |m.videos|][i] == got[base + i];
    }
  }

  lemma DataCounts(m: Shared)
    ensures |ImageData(m.images)| == |m.images| && |VideoData(m.videos)| == |m.videos|
  {
  }

  lemma WhereItsDataIs(messages: seq<Shared>, n: nat)
    requires n < |messages|
    ensures var images, videos := |AllImageData(messages[..n])|, |AllVideoData(messages[..n])|; var m := messages[n];
      && n < |Header(messages)| && Header(messages)[n] == Describe(m, images, videos)
      && images + |m.images| <= |AllImageData(messages)|
      && AllImageData(messages)[images..images + |m.images|] == ImageData(m.images)
      && videos + |m.videos| <= |AllVideoData(messages)|
      && AllVideoData(messages)[videos..videos + |m.videos|] == VideoData(m.videos)
  {
    hide AllImageData, AllVideoData, Header, AllSizes, AllVideoSizes, ImageData, VideoData;
    HeaderSizes(messages[..n]);
    DataGrows(messages, n);
    DataPrefix(messages, n + 1);
    assert |ImageData(messages[n].images)| == |messages[n].images| by { DataCounts(messages[n]); }
    assert |VideoData(messages[n].videos)| == |messages[n].videos| by { DataCounts(messages[n]); }
  }

  /** Putting each message's bytes back by index gives the message. */
  lemma RebuildsOne(messages: seq<Shared>, n: nat, r: Receiver)
    requires n < |messages| && r.images.got == AllImageData(messages) && r.videos.got == AllVideoData(messages)
    ensures n < |Header(messages)| && Indexed(Header(messages)[n], r) && Rebuild(Header(messages)[n], r) == messages[n]
  {
    hide AllImageData, AllVideoData, Header, DescribeImages, DescribeVideos, ImageData, VideoData;
    WhereItsDataIs(messages, n);
    ImagesPutBack(messages[n], |AllImageData(messages[..n])|, r.images.got);
    VideosPutBack(messages[n], |AllVideoData(messages[..n])|, r.videos.got);
    var m, d := messages[n], Header(messages)[n];
    assert Rebuild(d, r).images == m.images;
    assert Rebuild(d, r).videos == m.videos;
  }

  // ---------------------------------------------------------------- the stream

  lemma {:induction false} FeedBoth(r: Receiver, a: seq<Chunk>, b: seq<Chunk>)
    requires r.Valid()
    ensures Feed(r, a + b) == match Feed(r, a) case None => None case Some(s) => Feed(s, b)
    decreases |a|
  {
    if a == [] {
      assert a + b == b;
    } else {
      assert (a + b)[1..] == a[1..] + b;
      if Accept(r, a[0]).Some? {
        FeedBoth(Accept(r, a[0]).value, a[1..], b);
      }
    }
  }

  /** Everything before item `from`, the first `offset` bytes of it, and nothing after. */
  ghost predicate OnTrack(t: Track, all: seq<Data>, from: nat, offset: nat) {
    && t.Valid() && |t.sizes| == |all| && from <= |all|
    && (forall i :: 0 <= i < |all| ==> t.sizes[i] == |all[i]|)
    && (forall i :: 0 <= i < from ==> t.got[i] == all[i])
    && (forall i :: from < i < |all| ==> t.got[i] == [])
    && (from < |all| ==> offset <= |all[from]| && t.got[from] == all[from][..offset])
  }

  /** The track of one kind is where it should be, while the other kind is done or untouched. */
  ghost predicate Ready(r: Receiver, video: bool, all: seq<Data>, from: nat, offset: nat) {
    && r.Valid()
    && (if video then OnTrack(r.videos, all, from, offset) else OnTrack(r.images, all, from, offset))
    && (if video then r.images.DoneBefore(|r.images.sizes|)
        else forall i :: 0 <= i < |r.videos.got| ==> r.videos.got[i] == [])
  }

  lemma TrackMovesOn(t: Track, c: Chunk, all: seq<Data>, from: nat, offset: nat, end: nat)
    requires from < |all| && OnTrack(t, all, from, offset) && offset < end <= |all[from]| && end - offset <= CHUNK
    requires c.index == from && c.offset == offset && c.data == all[from][offset..end]
      && c.final == (end == |all[from]|)
    ensures var out := AcceptOn(t, c); out.Some? && OnTrack(out.value, all, from, end) && out.value.sizes == t.sizes
  {
    assert all[from][..offset] + all[from][offset..end] == all[from][..end];
    forall i | 0 <= i < from ensures |t.got[i]| == t.sizes[i] {
      assert t.got[i] == all[i];
    }
  }

  lemma TrackTurnsOver(t: Track, all: seq<Data>, from: nat)
    requires from < |all| && OnTrack(t, all, from, |all[from]|)
    ensures OnTrack(t, all, from + 1, 0)
  {
    assert all[from][..|all[from]|] == all[from];
    assert from + 1 < |all| ==> all[from + 1][..0] == [];
  }

  /** The chunk due next is accepted and moves the receiver along by its bytes. */
  lemma AcceptsWhatIsDue(r: Receiver, video: bool, all: seq<Data>, from: nat, offset: nat, end: nat)
    requires from < |all| && Ready(r, video, all, from, offset)
    requires offset < end <= |all[from]| && end - offset <= CHUNK && offset <= |all[from]|
    ensures var out := Accept(r, Chunk(video, from, offset, all[from][offset..end], end == |all[from]|));
      && out.Some? && Ready(out.value, video, all, from, end)
      && (if video then out.value.images == r.images else out.value.videos == r.videos)
      && out.value.images.sizes == r.images.sizes && out.value.videos.sizes == r.videos.sizes
  {
    hide OnTrack, AcceptOn;
    TrackMovesOn(if video then r.videos else r.images,
                 Chunk(video, from, offset, all[from][offset..end], end == |all[from]|), all, from, offset, end);
  }

  lemma {:induction false} FeedOne(r: Receiver, video: bool, all: seq<Data>, from: nat, offset: nat)
    returns (s: Receiver)
    requires from < |all| && Ready(r, video, all, from, offset)
    ensures Feed(r, ChunksFrom(video, from, all[from], offset)) == Some(s) && Ready(s, video, all, from + 1, 0)
    ensures if video then s.images == r.images else s.videos == r.videos
    ensures s.images.sizes == r.images.sizes && s.videos.sizes == r.videos.sizes
    decreases |all[from]| - offset
  {
    var data := all[from];
    if offset == |data| {
      s := r;
      TrackTurnsOver(if video then r.videos else r.images, all, from);
    } else {
      hide Accept, Ready;
      var end := if offset + CHUNK > |data| then |data| else offset + CHUNK;
      var c := Chunk(video, from, offset, data[offset..end], end == |data|);
      AcceptsWhatIsDue(r, video, all, from, offset, end);
      var next := Accept(r, c).value;
      s := FeedOne(next, video, all, from, end);
      assert ([c] + ChunksFrom(video, from, data, end))[1..] == ChunksFrom(video, from, data, end);
    }
  }

  lemma {:induction false} FeedAll(r: Receiver, video: bool, all: seq<Data>, from: nat) returns (s: Receiver)
    requires from <= |all| && Ready(r, video, all, from, 0)
    ensures Feed(r, StreamFrom(video, all, from)) == Some(s)
    ensures s.Valid()
    ensures if video then s.images == r.images && s.videos.got == all else s.videos == r.videos && s.images.got == all
    ensures s.images.sizes == r.images.sizes && s.videos.sizes == r.videos.sizes
    decreases |all| - from
  {
    if from == |all| {
      s := r;
    } else {
      var one := FeedOne(r, video, all, from, 0);
      s := FeedAll(one, video, all, from + 1);
      FeedBoth(r, ChunksFrom(video, from, all[from], 0), StreamFrom(video, all, from + 1));
    }
  }

  /**
    For every snapshot, the receiving side accepts the stream chunk by chunk, ends with every
    item complete, and rebuilds the same snapshot.
  */
  lemma FramingRoundTrips(messages: seq<Shared>)
    ensures Receive(Header(messages), Stream(AllImageData(messages), AllVideoData(messages))) == Some(messages)
  {
    hide AllImageData, AllVideoData, Header, AllSizes, AllVideoSizes, StreamFrom, Feed, Indexed, Rebuild;
    var header, images, videos := Header(messages), AllImageData(messages), AllVideoData(messages);
    HeaderSizes(messages);
    var r := Expecting(header);
    var half := FeedAll(r, false, images, 0);
    var s := FeedAll(half, true, videos, 0);
    FeedBoth(r, StreamFrom(false, images, 0), StreamFrom(true, videos, 0));
    forall n | 0 <= n < |messages| ensures Indexed(header[n], s) && Rebuild(header[n], s) == messages[n] {
      RebuildsOne(messages, n, s);
    }
    assert Feed(r, Stream(images, videos)) == Some(s);
    assert RebuildAll(header, s) == messages;
  }
}
