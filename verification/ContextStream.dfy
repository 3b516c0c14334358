/** The sending side: the loops that build the header and cut the bytes into chunks. */
module ContextStreams {
  import opened Options
  import opened ContextAssembly
  import opened ContextAssemblers
  import opened ContextFraming

  /** Describes every message, numbering images and videos as they are met and setting their bytes aside. */
  method BuildHeader(messages: seq<Shared>) returns (header: seq<Described>, images: seq<Data>, videos: seq<Data>)
    ensures header == Header(messages) && images == AllImageData(messages) && videos == AllVideoData(messages)
  {
    header, images, videos := [], [], [];
    for n := 0 to |messages|
      invariant header == Header(messages[..n]) && images == AllImageData(messages[..n])
        && videos == AllVideoData(messages[..n])
    {
      var m := messages[n];
      DataGrows(messages, n);
      HeaderSizes(messages[..n]);
      hide AllImageData, AllVideoData, Header;
      var described, filmed, imageData, videoData;
      described, imageData := NumberImages(m.images, images);
      filmed, videoData := NumberVideos(m.videos, videos);
      header := header + [Described(m.number, m.authorType, m.text, described, filmed)];
      images, videos := imageData, videoData;
    }
    assert messages[..|messages|] == messages;
  }

  method NumberImages(images: seq<Image>, before: seq<Data>) returns (described: seq<ImageDescriptor>, all: seq<Data>)
    ensures described == DescribeImages(images, |before|) && all == before + ImageData(images)
  {
    described, all := [], before;
    for i := 0 to |images|
      invariant described == DescribeImages(images, |before|)[..i] && all == before + ImageData(images)[..i]
    {
      described := described + [ImageDescriptor(|all|, images[i].mediaType, |images[i].data|)];
      all := all + [images[i].data];
    }
  }

  method NumberVideos(videos: seq<Video>, before: seq<Data>) returns (described: seq<VideoDescriptor>, all: seq<Data>)
    ensures described == DescribeVideos(videos, |before|) && all == before + VideoData(videos)
  {
    described, all := [], before;
    for i := 0 to |videos|
      invariant described == DescribeVideos(videos, |before|)[..i] && all == before + VideoData(videos)[..i]
    {
      var v := videos[i];
      described := described + [VideoDescriptor(|all|, v.mediaType, |v.data|, v.duration, v.name)];
      all := all + [v.data];
    }
  }

  method SendChunks(video: bool, all: seq<Data>, before: seq<Chunk>) returns (sent: seq<Chunk>)
    ensures sent == before + StreamFrom(video, all, 0)
  {
    sent := before;
    for index := 0 to |all|
      invariant sent + StreamFrom(video, all, index) == before + StreamFrom(video, all, 0)
    {
      var data := all[index];
      ghost var start := sent;
      var offset := 0;
      while offset < |data|
        invariant 0 <= offset <= |data|
        invariant sent + ChunksFrom(video, index, data, offset) == start + ChunksFrom(video, index, data, 0)
      {
        var end := offset + CHUNK;
        if end > |data| { end := |data|; }
        ghost var rest := ChunksFrom(video, index, data, end);
        var chunk := Chunk(video, index, offset, data[offset..end], end == |data|);
        assert ChunksFrom(video, index, data, offset) == [chunk] + rest;
        assert sent + ([chunk] + rest) == (sent + [chunk]) + rest;
        sent := sent + [chunk];
        offset := end;
      }
      assert sent == start + ChunksFrom(video, index, data, 0);
      assert start + (ChunksFrom(video, index, data, 0) + StreamFrom(video, all, index + 1))
          == sent + StreamFrom(video, all, index + 1);
    }
  }

  /** The whole stream: what a well-behaved receiver makes of it is the snapshot itself. */
  method GetAgentAttachedContext(messages: seq<Shared>) returns (header: seq<Described>, sent: seq<Chunk>)
    ensures header == Header(messages)
    ensures Receive(header, sent) == Some(messages)
  {
    var images, videos;
    header, images, videos := BuildHeader(messages);
    sent := SendChunks(false, images, []);
    sent := SendChunks(true, videos, sent);
    assert sent == Stream(images, videos);
    FramingRoundTrips(messages);
  }
}
