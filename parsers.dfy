/**
 * The per-source parsers of the scraper. Each input is the already-decoded JSON shape (or, for
 * the embed page, what the page's patterns captured); each output is the canonical content
 * record. Keys the source reads with `??` are Option fields here; keys it reads bare are plain
 * fields.
 */
module Parsers {
  import opened Wrappers
  import opened Text
  import opened Content
  import opened Renditions
  import Urls

  /** A GraphQL media node: the fields extractMediaInfo reads. */
  datatype GraphNode = GraphNode(
    isVideo: Option<bool>,
    displayUrl: Option<string>,
    thumbnailSrc: Option<string>,
    videoUrl: Option<string>,
    videoDuration: Option<real>,
    videoViewCount: Option<int>,
    width: Option<int>,
    height: Option<int>,
    displayResources: Option<seq<Resource>>)

  /** `shortcode_media`: the post's own node plus the post-level fields parseGraphQLResponse reads. */
  datatype GraphMedia = GraphMedia(
    node: GraphNode,
    shortcode: string,
    typename: Option<string>,
    productType: Option<string>,
    ownerUsername: Option<string>,
    ownerId: Option<string>,
    ownerProfilePicUrl: Option<string>,
    ownerFullName: Option<string>,
    takenAt: Option<int>,
    captionEdgeText: Option<string>,
    caption: Option<string>,
    likeCount: Option<int>,
    commentCount: Option<int>,
    children: Option<seq<GraphNode>>)

  /** The oEmbed response fields parseOEmbedResponse reads; `title` is the text left once
      strip_tags has removed its markup. */
  datatype OEmbedData = OEmbedData(
    authorName: Option<string>,
    title: Option<string>,
    thumbnailUrl: Option<string>,
    thumbnailWidth: Option<int>,
    thumbnailHeight: Option<int>)

  /** What the embed page yielded: a `shortcode_media` object found by one of its two JSON
      patterns, or else what the markup patterns captured (`caption` already without tags). */
  datatype EmbedPage =
    | EmbeddedMedia(media: GraphMedia)
    | EmbedMarkup(mentionsVideo: bool, imageSrc: Option<string>, videoSrc: Option<string>,
                  username: Option<string>, caption: Option<string>)

  /** An item of the direct `__a=1` API, or an element of its `carousel_media`. */
  datatype DirectItem = DirectItem(
    code: Option<string>,
    productType: Option<string>,
    username: Option<string>,
    profilePicUrl: Option<string>,
    captionText: Option<string>,
    likeCount: Option<int>,
    commentCount: Option<int>,
    candidates: Option<seq<Rendition>>,
    videoVersions: Option<seq<Rendition>>,
    videoDuration: Option<real>,
    carouselMedia: Option<seq<DirectItem>>)

  /** isReels: the product type, absent counting as '', is 'clips' or 'reels'. */
  predicate IsReels(productType: Option<string>)
    ensures IsReels(productType) <==> productType == Some("clips") || productType == Some("reels")
  {
    productType.GetOr("") == "clips" || productType.GetOr("") == "reels"
  }

  /** extractCaption: the first caption edge's text when present, else `caption`, else ''. */
  function ExtractCaption(m: GraphMedia): (c: string)
    ensures m.captionEdgeText.Some? ==> c == m.captionEdgeText.value
    ensures m.captionEdgeText.None? && m.caption.Some? ==> c == m.caption.value
    ensures m.captionEdgeText.None? && m.caption.None? ==> c == ""
  {
    match m.captionEdgeText
    case Some(t) => t
    case None => m.caption.GetOr("")
  }

  /** The scraper's formatDuration on a number of seconds: the floor of the minutes, a colon, and
      the seconds (truncated to an integer before `%`, as PHP does) padded to two digits. */
  function FormatDurationReal(seconds: real): (d: string)
    ensures seconds >= 0.0 ==> d == NatToString(seconds.Floor / 60) + ":" + ZeroPad2(seconds.Floor % 60)
  {
    assert seconds >= 0.0 ==> (seconds / 60.0).Floor == seconds.Floor / 60 by {
      if seconds >= 0.0 {
        var n := seconds.Floor;
        var q := n / 60;
        assert q as real * 60.0 <= n as real <= seconds;
        assert seconds < n as real + 1.0 <= (q + 1) as real * 60.0;
      }
    }
    IntToString((seconds / 60.0).Floor) + ":" + ZeroPad2(TruncMod(Trunc(seconds), 60))
  }

  /** The shape every media item the scraper builds keeps: only videos carry video fields, width
      and height come together, and a recorded width and height is what the resolution names. */
  predicate WellFormedMedia(m: Media) {
    && (m.kind == PhotoMedia ==> m.videoUrl.None? && m.videoVersions.None? && m.duration.None? && m.views.None?)
    && (m.width.Some? <==> m.height.Some?)
    && (m.width.Some? ==> m.resolution == Some(Resolution(m.width.value, m.height.value)))
  }

  /** The download options a record offers are the table entries for its own type. */
  predicate OptionsFitContent(c: Content) {
    c.downloadOptions.Some? ==> c.downloadOptions.value == GenerateDownloadOptions(c.isVideo, c.ctype)
  }

  /** extractMediaInfo: one GraphQL node as a media item at position `index`. */
  function ExtractMediaInfo(n: GraphNode, index: int): (m: Media)
    ensures WellFormedMedia(m)
    ensures m.index == index
    ensures m.kind == VideoMedia <==> n.isVideo == Some(true)
    ensures m.previewUrl == Some(n.displayUrl.GetOr(""))
    ensures m.thumbnailUrl == Some(if n.thumbnailSrc.Some? then n.thumbnailSrc.value else n.displayUrl.GetOr(""))
    ensures m.kind == VideoMedia ==> m.videoUrl == n.videoUrl && m.views == Some(n.videoViewCount.GetOr(0))
    ensures m.kind == VideoMedia ==> (m.duration.Some? <==> n.videoDuration.Some?)
    ensures m.width == Some(n.width.GetOr(1080)) && m.height == Some(n.height.GetOr(1080))
    ensures m.resources == n.displayResources
  {
    var video := n.isVideo.GetOr(false);
    var w := n.width.GetOr(1080);
    var h := n.height.GetOr(1080);
    Media(
      index := index,
      kind := if video then VideoMedia else PhotoMedia,
      previewUrl := Some(n.displayUrl.GetOr("")),
      thumbnailUrl := Some(if n.thumbnailSrc.Some? then n.thumbnailSrc.value else n.displayUrl.GetOr("")),
      videoUrl := if video then n.videoUrl else None,
      videoVersions := None,
      duration := if video && n.videoDuration.Some? then Some(FormatDurationReal(n.videoDuration.value)) else None,
      views := if video then Some(n.videoViewCount.GetOr(0)) else None,
      width := Some(w),
      height := Some(h),
      resolution := Some(Resolution(w, h)),
      resources := n.displayResources)
  }

  /** The carousel children as media items, each indexed by its position. */
  function ChildMedia(children: seq<GraphNode>): (ms: seq<Media>)
    ensures |ms| == |children|
    ensures forall i :: 0 <= i < |ms| ==> ms[i] == ExtractMediaInfo(children[i], i)
  {
    seq(|children|, i requires 0 <= i < |children| => ExtractMediaInfo(children[i], i))
  }

  /** The content type both API parsers derive: photo unless the media is a video, and for a
      video reels or video by the product type. */
  function VideoContentType(isVideo: bool, reels: bool): (t: ContentType)
    ensures t == Photo <==> !isVideo
    ensures t == Reels <==> isVideo && reels
    ensures t == Video <==> isVideo && !reels
  {
    if !isVideo then Photo else if reels then Reels else Video
  }

  /** Filling in the fields taken from the first media item, and the download options, once the
      media list is known; an empty list leaves them out. */
  function WithMainMedia(c: Content): (r: Content)
    requires c.downloadOptions.None?
    ensures r.media == c.media && r.isVideo == c.isVideo && r.ctype == c.ctype
    ensures r.shortcode == c.shortcode && r.isCarousel == c.isCarousel && r.carouselCount == c.carouselCount
    ensures OptionsFitContent(r)
    ensures |c.media| > 0 ==> && r.duration == c.media[0].duration
                              && r.resolution == Some(c.media[0].resolution.GetOr(DefaultResolution))
                              && r.downloadOptions.Some?
    ensures |c.media| == 0 ==> r == c
    ensures r.(duration := c.duration, resolution := c.resolution, downloadOptions := None) == c
  {
    if |c.media| == 0 then c
    else
      c.(duration := c.media[0].duration,
         resolution := Some(c.media[0].resolution.GetOr(DefaultResolution)),
         downloadOptions := Some(GenerateDownloadOptions(c.isVideo, c.ctype)))
  }

  /** The record parseGraphQLResponse builds before its media list is filled in; `now` stands
      for time(), the timestamp used when the post carries none. */
  function GraphQLHeader(m: GraphMedia, now: int): (h: Content)
    ensures h.shortcode == m.shortcode
    ensures h.isCarousel <==> m.typename == Some("GraphSidecar")
    ensures h.isVideo <==> m.node.isVideo == Some(true)
    ensures h.ctype == VideoContentType(h.isVideo, IsReels(m.productType))
    ensures h.username == "@" + (if m.ownerUsername.Some? then m.ownerUsername.value else "unknown")
    ensures h.userAvatar == (if m.ownerProfilePicUrl.Some? then m.ownerProfilePicUrl.value else DefaultAvatar)
    ensures h.userId == m.ownerId
    ensures h.userFullName == Some(if m.ownerFullName.Some? then m.ownerFullName.value else "")
    ensures h.takenAt == Some(if m.takenAt.Some? then m.takenAt.value else now)
    ensures h.caption == ExtractCaption(m)
    ensures h.likes == Some(if m.likeCount.Some? then m.likeCount.value else 0)
    ensures h.comments == Some(if m.commentCount.Some? then m.commentCount.value else 0)
    ensures h.previewUrl == Some(if m.node.displayUrl.Some? then m.node.displayUrl.value
                                 else if m.node.thumbnailSrc.Some? then m.node.thumbnailSrc.value
                                 else "")
    ensures h.media == [] && h.downloadOptions.None?
  {
    var video := m.node.isVideo.GetOr(false);
    var ctype := VideoContentType(video, IsReels(m.productType));
    Content(
      shortcode := m.shortcode,
      ctype := ctype,
      isVideo := video,
      isCarousel := m.typename.GetOr("") == "GraphSidecar",
      username := "@" + m.ownerUsername.GetOr("unknown"),
      userId := m.ownerId,
      userAvatar := m.ownerProfilePicUrl.GetOr(DefaultAvatar),
      userFullName := Some(m.ownerFullName.GetOr("")),
      takenAt := Some(m.takenAt.GetOr(now)),
      caption := ExtractCaption(m),
      likes := Some(m.likeCount.GetOr(0)),
      comments := Some(m.commentCount.GetOr(0)),
      previewUrl := Some(if m.node.displayUrl.Some? then m.node.displayUrl.value else m.node.thumbnailSrc.GetOr("")),
      thumbnailUrl := None,
      media := [],
      carouselCount := None,
      duration := None,
      resolution := None,
      downloadOptions := None)
  }

  /** The record parseGraphQLResponse returns. */
  function GraphQLContent(m: GraphMedia, now: int): (c: Content)
    ensures c.shortcode == m.shortcode
    ensures c.isCarousel <==> m.typename == Some("GraphSidecar")
    ensures c.isVideo <==> m.node.isVideo == Some(true)
    ensures c.ctype == VideoContentType(c.isVideo, IsReels(m.productType))
    ensures c.media == GraphQLMedia(m)
    ensures c.carouselCount == Some(if c.isCarousel && m.children.Some? then |c.media| else 0)
    ensures OptionsFitContent(c)
    ensures |c.media| > 0 ==> c.downloadOptions.Some? && c.resolution == c.media[0].resolution
    ensures |c.media| > 0 ==> && c.duration == c.media[0].duration
                              && c.resolution == Some(c.media[0].resolution.GetOr(DefaultResolution))
    ensures |c.media| == 0 ==> c.duration.None? && c.resolution.None? && c.downloadOptions.None?
    ensures c.(media := [], carouselCount := None, duration := None, resolution := None, downloadOptions := None)
            == GraphQLHeader(m, now)
  {
    var header := GraphQLHeader(m, now);
    var media := GraphQLMedia(m);
    var count := if header.isCarousel && m.children.Some? then |media| else 0;
    WithMainMedia(header.(media := media, carouselCount := Some(count)))
  }

  /** The media list of parseGraphQLResponse: one indexed item per child of a carousel that has
      children, else the post itself as item 0; every item is well formed. */
  function GraphQLMedia(m: GraphMedia): (ms: seq<Media>)
    ensures m.typename == Some("GraphSidecar") && m.children.Some? ==>
              && |ms| == |m.children.value|
              && forall i :: 0 <= i < |ms| ==> ms[i] == ExtractMediaInfo(m.children.value[i], i)
    ensures !(m.typename == Some("GraphSidecar") && m.children.Some?) ==> ms == [ExtractMediaInfo(m.node, 0)]
    ensures forall i :: 0 <= i < |ms| ==> ms[i].index == i && WellFormedMedia(ms[i])
  {
    if m.typename.GetOr("") == "GraphSidecar" && m.children.Some? then ChildMedia(m.children.value)
    else [ExtractMediaInfo(m.node, 0)]
  }

  /** parseGraphQLResponse: the header first, then one media item per carousel child, appended
      in order, or the post itself as the only item. */
  method ParseGraphQLResponse(m: GraphMedia, now: int) returns (c: Content)
    ensures c == GraphQLContent(m, now)
  {
    var header := GraphQLHeader(m, now);
    var media: seq<Media>;
    var count: nat;
    if header.isCarousel && m.children.Some? {
      var edges := m.children.value;
      media := [];
      for index := 0 to |edges|
        invariant media == ChildMedia(edges[..index])
      {
        media := media + [ExtractMediaInfo(edges[index], index)];
      }
      assert edges[..|edges|] == edges;
      count := |media|;
    } else {
      media := [ExtractMediaInfo(m.node, 0)];
      count := 0;
    }
    assert media == GraphQLMedia(m);
    c := WithMainMedia(header.(media := media, carouselCount := Some(count)));
  }

  /** parseOEmbedResponse: a single photo post; the shortcode comes from the original URL. */
  function OEmbedContent(d: OEmbedData, url: string): (c: Content)
    ensures c.shortcode == Urls.ShortcodeOf(url)
    ensures c.ctype == Post && !c.isVideo && !c.isCarousel
    ensures c.username == "@" + d.authorName.GetOr("unknown")
    ensures c.userAvatar == DefaultAvatar
    ensures c.caption == (if d.title.Some? then d.title.value else "")
    ensures |c.media| == 1 && c.media[0].index == 0 && c.media[0].kind == PhotoMedia
    ensures c.media[0].previewUrl == c.previewUrl == c.thumbnailUrl == Some(d.thumbnailUrl.GetOr(""))
    ensures WellFormedMedia(c.media[0])
    ensures c.media[0].width == Some(d.thumbnailWidth.GetOr(1080))
    ensures c.media[0].height == Some(d.thumbnailHeight.GetOr(1080))
    ensures c.resolution == c.media[0].resolution
    ensures c.resolution == Some(Resolution(d.thumbnailWidth.GetOr(1080), d.thumbnailHeight.GetOr(1080)))
    ensures OptionsFitContent(c) && c.downloadOptions.Some?
  {
    var w := d.thumbnailWidth.GetOr(1080);
    var h := d.thumbnailHeight.GetOr(1080);
    var thumb := d.thumbnailUrl.GetOr("");
    Content(
      shortcode := Urls.ShortcodeOf(url),
      ctype := Post,
      isVideo := false,
      isCarousel := false,
      username := "@" + d.authorName.GetOr("unknown"),
      userId := None,
      userAvatar := DefaultAvatar,
      userFullName := None,
      takenAt := None,
      caption := d.title.GetOr(""),
      likes := None,
      comments := None,
      previewUrl := Some(thumb),
      thumbnailUrl := Some(thumb),
      media := [Media(0, PhotoMedia, Some(thumb), None, None, None, None, None, Some(w), Some(h),
                      Some(Resolution(w, h)), None)],
      carouselCount := None,
      duration := None,
      resolution := Some(Resolution(w, h)),
      downloadOptions := Some(GenerateDownloadOptions(false, Photo)))
  }

  /** The post-match part of parseEmbedPage: a JSON object found on the page goes through
      parseGraphQLResponse; otherwise the record is assembled from the markup, and None (null)
      is returned when the page showed neither an image nor a video. */
  function EmbedContent(p: EmbedPage, shortcode: string, now: int): (r: Option<Content>)
    ensures p.EmbeddedMedia? ==> r == Some(GraphQLContent(p.media, now))
    ensures p.EmbedMarkup? ==> (r.None? <==> p.imageSrc.None? && p.videoSrc.None?)
    ensures p.EmbedMarkup? && r.Some? ==>
              && r.value.shortcode == shortcode
              && |r.value.media| == (if p.imageSrc.Some? then 1 else 0) + (if p.videoSrc.Some? then 1 else 0)
              && (p.imageSrc.Some? ==> r.value.media[0].kind == PhotoMedia && r.value.media[0].previewUrl == p.imageSrc)
              && (p.videoSrc.Some? ==> r.value.media[|r.value.media| - 1].kind == VideoMedia
                                       && r.value.media[|r.value.media| - 1].videoUrl == p.videoSrc)
              && (r.value.ctype == Video <==> p.videoSrc.Some?)
              && (r.value.ctype == Post <==> p.videoSrc.None?)
              && (r.value.isVideo <==> p.mentionsVideo || p.videoSrc.Some?)
              && r.value.resolution == Some(DefaultResolution)
              && r.value.username == "@" + (if p.username.Some? then p.username.value else "unknown")
              && r.value.userAvatar == DefaultAvatar
              && r.value.caption == (if p.caption.Some? then p.caption.value else "")
              && r.value.previewUrl == p.imageSrc
              && r.value.likes.None? && r.value.comments.None?
    ensures p.EmbedMarkup? && r.Some? ==>
              && !r.value.isCarousel
              && (forall i :: 0 <= i < |r.value.media| ==> r.value.media[i].index == 0)
              && (p.imageSrc.Some? ==> r.value.media[0].resolution == Some(DefaultResolution))
              && (p.videoSrc.Some? ==> && r.value.media[|r.value.media| - 1].previewUrl == Some(p.imageSrc.GetOr(""))
                                       && r.value.media[|r.value.media| - 1].resolution.None?)
    ensures r.Some? ==> OptionsFitContent(r.value)
    ensures p.EmbedMarkup? && r.Some? ==> r.value.downloadOptions.Some?
    ensures r.Some? ==> forall i :: 0 <= i < |r.value.media| ==> WellFormedMedia(r.value.media[i])
  {
    match p
    case EmbeddedMedia(m) => Some(GraphQLContent(m, now))
    case EmbedMarkup(mentionsVideo, imageSrc, videoSrc, username, caption) =>
      var photo := if imageSrc.Some? then [Media(0, PhotoMedia, imageSrc, None, None, None, None, None, None, None,
                                                 Some(DefaultResolution), None)]
                   else [];
      var video := if videoSrc.Some? then [Media(0, VideoMedia, Some(imageSrc.GetOr("")), None, videoSrc, None, None,
                                                 None, None, None, None, None)]
                   else [];
      var isVideo := mentionsVideo || videoSrc.Some?;
      var ctype := if videoSrc.Some? then Video else Post;
      if photo + video == [] then None
      else
        Some(Content(
          shortcode := shortcode,
          ctype := ctype,
          isVideo := isVideo,
          isCarousel := false,
          username := "@" + username.GetOr("unknown"),
          userId := None,
          userAvatar := DefaultAvatar,
          userFullName := None,
          takenAt := None,
          caption := caption.GetOr(""),
          likes := None,
          comments := None,
          previewUrl := imageSrc,
          thumbnailUrl := None,
          media := photo + video,
          carouselCount := None,
          duration := None,
          resolution := Some(DefaultResolution),
          downloadOptions := Some(GenerateDownloadOptions(isVideo, ctype))))
  }

  /** The sort key of parseDirectMediaItem's usort: the width, absent counting as 0. */
  function RenditionWidth(r: Rendition): int {
    r.width.GetOr(0)
  }

  function ResourceWidth(r: Resource): int {
    r.width
  }

  /** An image candidate as an entry of `resources`. */
  function ToResource(r: Rendition): Resource {
    Resource(r.url, r.width.GetOr(0), r.height.GetOr(0))
  }

  function ToResources(rs: seq<Rendition>): (res: seq<Resource>)
    ensures |res| == |rs|
    ensures forall j :: 0 <= j < |rs| ==> res[j] == ToResource(rs[j])
  {
    seq(|rs|, j requires 0 <= j < |rs| => ToResource(rs[j]))
  }

  /** ToResources keeps a descending order of the widths. */
  lemma ToResourcesDescending(rs: seq<Rendition>)
    requires Descending(rs, RenditionWidth)
    ensures Descending(ToResources(rs), ResourceWidth)
  {
    var res := ToResources(rs);
    forall i, j | 0 <= i < j < |res| ensures ResourceWidth(res[j]) <= ResourceWidth(res[i]) {
      assert RenditionWidth(rs[j]) <= RenditionWidth(rs[i]);
    }
  }

  lemma ToResourcesAppend(a: seq<Rendition>, b: seq<Rendition>)
    ensures ToResources(a + b) == ToResources(a) + ToResources(b)
  {
  }

  /** Mapping two permutations of the same renditions to resources gives two permutations of
      the same resources. */
  lemma {:induction false} ToResourcesPermutes(s: seq<Rendition>, t: seq<Rendition>)
    requires multiset(s) == multiset(t)
    ensures multiset(ToResources(s)) == multiset(ToResources(t))
    decreases |s|
  {
    if s != [] {
      var x := s[0];
      assert x in multiset(t);
      var k :| 0 <= k < |t| && t[k] == x;
      var t' := t[..k] + t[k + 1..];
      assert t == t[..k] + [x] + t[k + 1..];
      assert s == [x] + s[1..];
      calc {
        multiset(t);
        multiset(t[..k] + [x] + t[k + 1..]);
        multiset(t[..k]) + multiset{x} + multiset(t[k + 1..]);
        multiset(t') + multiset{x};
      }
      assert multiset(s) == multiset(s[1..]) + multiset{x};
      assert multiset(s[1..]) == multiset(s) - multiset{x};
      assert multiset(t') == multiset(t) - multiset{x};
      ToResourcesPermutes(s[1..], t');
      ToResourcesAppend([x], s[1..]);
      ToResourcesAppend(t[..k], [x]);
      ToResourcesAppend(t[..k] + [x], t[k + 1..]);
      ToResourcesAppend(t[..k], t[k + 1..]);
    }
  }

  /** What the widest-first sort of a list of renditions gives: the same renditions, widest
      first, headed by the first of the widest; as resources, the same resources. */
  lemma SortedRenditions(rs: seq<Rendition>)
    ensures |rs| > 0 ==> SortDesc(rs, RenditionWidth)[0] == rs[WidestIndex(rs, RenditionWidth)]
    ensures multiset(ToResources(SortDesc(rs, RenditionWidth))) == multiset(ToResources(rs))
    ensures Descending(ToResources(SortDesc(rs, RenditionWidth)), ResourceWidth)
  {
    if |rs| > 0 {
      SortDescHead(rs, RenditionWidth);
    }
    ToResourcesPermutes(SortDesc(rs, RenditionWidth), rs);
    ToResourcesDescending(SortDesc(rs, RenditionWidth));
  }

  /** parseDirectMediaItem: the image candidates and video versions sorted widest first; the
      preview and video url are the widest entries (the first of equal widths). */
  function DirectMediaItem(item: DirectItem, index: int): (m: Media)
    ensures WellFormedMedia(m)
    ensures m.index == index
    ensures m.kind == VideoMedia <==> item.videoVersions.Some?
    ensures m.previewUrl.Some? <==> item.candidates.Some? && |item.candidates.value| > 0
    ensures item.candidates.Some? && |item.candidates.value| > 0 ==>
              var cs := item.candidates.value;
              var best := cs[WidestIndex(cs, RenditionWidth)];
              && m.previewUrl == Some(best.url)
              && m.width == Some(best.width.GetOr(1080)) && m.height == Some(best.height.GetOr(1080))
              && m.resources.Some? && |m.resources.value| == |cs|
              && Descending(m.resources.value, ResourceWidth)
              && m.resources.value[0] == ToResource(best)
              && multiset(m.resources.value) == multiset(ToResources(cs))
    ensures m.kind == VideoMedia ==>
              var vs := item.videoVersions.value;
              && (m.videoUrl.Some? <==> |vs| > 0)
              && (|vs| > 0 ==> && m.videoUrl == Some(vs[WidestIndex(vs, RenditionWidth)].url)
                               && m.videoVersions.Some?
                               && multiset(m.videoVersions.value) == multiset(vs)
                               && Descending(m.videoVersions.value, RenditionWidth))
              && (m.duration.Some? <==> item.videoDuration.Some?)
  {
    var cs := item.candidates.GetOr([]);
    var images := SortDesc(cs, RenditionWidth);
    SortedRenditions(cs);
    var video := item.videoVersions.Some?;
    var vs := item.videoVersions.GetOr([]);
    var videos := SortDesc(vs, RenditionWidth);
    SortedRenditions(vs);
    var w := if |cs| > 0 then Some(images[0].width.GetOr(1080)) else None;
    var h := if |cs| > 0 then Some(images[0].height.GetOr(1080)) else None;
    Media(
      index := index,
      kind := if video then VideoMedia else PhotoMedia,
      previewUrl := if |cs| > 0 then Some(images[0].url) else None,
      thumbnailUrl := None,
      videoUrl := if video && |vs| > 0 then Some(videos[0].url) else None,
      videoVersions := if video && |vs| > 0 then Some(videos) else None,
      duration := if video && item.videoDuration.Some? then Some(FormatDurationReal(item.videoDuration.value)) else None,
      views := None,
      width := w,
      height := h,
      resolution := if |cs| > 0 then Some(Resolution(w.value, h.value)) else None,
      resources := if |cs| > 0 then Some(ToResources(images)) else None)
  }

  /** The media list parseDirectResponse builds: one item per carousel element, indexed by its
      position, or the item itself. */
  function DirectMediaList(item: DirectItem): (ms: seq<Media>)
    ensures item.carouselMedia.Some? ==> |ms| == |item.carouselMedia.value|
    ensures item.carouselMedia.None? ==> ms == [DirectMediaItem(item, 0)]
    ensures forall i :: 0 <= i < |ms| ==> ms[i].index == i && WellFormedMedia(ms[i])
    ensures item.carouselMedia.Some? ==>
              forall i :: 0 <= i < |ms| ==> ms[i] == DirectMediaItem(item.carouselMedia.value[i], i)
  {
    match item.carouselMedia
    case Some(children) => seq(|children|, i requires 0 <= i < |children| => DirectMediaItem(children[i], i))
    case None => [DirectMediaItem(item, 0)]
  }

  /** The record parseDirectResponse builds before its media list is filled in. */
  function DirectHeader(item: DirectItem): (h: Content)
    ensures h.shortcode == (if item.code.Some? then item.code.value else "")
    ensures h.isVideo <==> item.videoVersions.Some?
    ensures h.isCarousel <==> item.carouselMedia.Some?
    ensures h.ctype == VideoContentType(h.isVideo, item.productType == Some("clips"))
    ensures h.username == "@" + (if item.username.Some? then item.username.value else "unknown")
    ensures h.userAvatar == (if item.profilePicUrl.Some? then item.profilePicUrl.value else DefaultAvatar)
    ensures h.caption == (if item.captionText.Some? then item.captionText.value else "")
    ensures h.likes == Some(if item.likeCount.Some? then item.likeCount.value else 0)
    ensures h.comments == Some(if item.commentCount.Some? then item.commentCount.value else 0)
    ensures h.userId.None? && h.userFullName.None? && h.takenAt.None? && h.thumbnailUrl.None?
    ensures h.media == [] && h.previewUrl.None? && h.downloadOptions.None?
  {
    var video := item.videoVersions.Some?;
    var ctype := VideoContentType(video, item.productType.GetOr("") == "clips");
    Content(
      shortcode := item.code.GetOr(""),
      ctype := ctype,
      isVideo := video,
      isCarousel := item.carouselMedia.Some?,
      username := "@" + item.username.GetOr("unknown"),
      userId := None,
      userAvatar := item.profilePicUrl.GetOr(DefaultAvatar),
      userFullName := None,
      takenAt := None,
      caption := item.captionText.GetOr(""),
      likes := Some(item.likeCount.GetOr(0)),
      comments := Some(item.commentCount.GetOr(0)),
      previewUrl := None,
      thumbnailUrl := None,
      media := [],
      carouselCount := None,
      duration := None,
      resolution := None,
      downloadOptions := None)
  }

  /** The end of parseDirectResponse: preview, duration and resolution from the first media item
      when there is one, then the download options, which are computed in any case. */
  function DirectWithMainMedia(c: Content): (r: Content)
    requires c.downloadOptions.None?
    requires |c.media| > 0 ==> c.media[0].previewUrl.Some?
    ensures r.media == c.media && r.shortcode == c.shortcode && r.isCarousel == c.isCarousel
    ensures r.isVideo == c.isVideo && r.ctype == c.ctype && r.carouselCount == c.carouselCount
    ensures |c.media| > 0 ==> && r.previewUrl == c.media[0].previewUrl
                              && r.duration == c.media[0].duration
                              && r.resolution == Some(c.media[0].resolution.GetOr(DefaultResolution))
    ensures OptionsFitContent(r) && r.downloadOptions.Some?
    ensures r.(previewUrl := c.previewUrl, duration := c.duration, resolution := c.resolution, downloadOptions := None) == c
  {
    var c' := if |c.media| > 0
              then c.(previewUrl := c.media[0].previewUrl,
                      duration := c.media[0].duration,
                      resolution := Some(c.media[0].resolution.GetOr(DefaultResolution)))
              else c;
    c'.(downloadOptions := Some(GenerateDownloadOptions(c'.isVideo, c'.ctype)))
  }

  /** The record parseDirectResponse returns, or None when it throws: reading the first item's
      `preview_url`, which an item without image candidates lacks, raises an error. */
  function DirectContent(item: DirectItem): (r: Option<Content>)
    ensures var ms := DirectMediaList(item);
            r.None? <==> |ms| > 0 && ms[0].previewUrl.None?
    ensures r.Some? ==>
              && r.value.media == DirectMediaList(item)
              && r.value.shortcode == item.code.GetOr("")
              && (r.value.isCarousel <==> item.carouselMedia.Some?)
              && (r.value.isVideo <==> item.videoVersions.Some?)
              && r.value.ctype == VideoContentType(r.value.isVideo, item.productType == Some("clips"))
              && r.value.carouselCount == Some(if item.carouselMedia.Some? then |r.value.media| else 0)
              && (|r.value.media| > 0 ==> && r.value.previewUrl == r.value.media[0].previewUrl
                                          && r.value.duration == r.value.media[0].duration
                                          && r.value.resolution == Some(r.value.media[0].resolution.GetOr(DefaultResolution)))
              && (|r.value.media| == 0 ==> r.value.previewUrl.None? && r.value.duration.None? && r.value.resolution.None?)
              && OptionsFitContent(r.value) && r.value.downloadOptions.Some?
    ensures r.Some? ==>
              var h := DirectHeader(item);
              && r.value.username == h.username && r.value.userAvatar == h.userAvatar
              && r.value.caption == h.caption && r.value.likes == h.likes && r.value.comments == h.comments
  {
    var media := DirectMediaList(item);
    var count := if item.carouselMedia.Some? then |media| else 0;
    if |media| > 0 && media[0].previewUrl.None? then None
    else Some(DirectWithMainMedia(DirectHeader(item).(media := media, carouselCount := Some(count))))
  }

  /** parseDirectResponse: the carousel elements are parsed one by one and appended in order. */
  method ParseDirectResponse(item: DirectItem) returns (r: Option<Content>)
    ensures r == DirectContent(item)
  {
    var c := DirectHeader(item);
    var media: seq<Media> := [];
    if item.carouselMedia.Some? {
      var children := item.carouselMedia.value;
      for index := 0 to |children|
        invariant |media| == index
        invariant forall i :: 0 <= i < index ==> media[i] == DirectMediaItem(children[i], i)
      {
        media := media + [DirectMediaItem(children[index], index)];
      }
      c := c.(media := media, carouselCount := Some(|media|));
    } else {
      media := [DirectMediaItem(item, 0)];
      c := c.(media := media, carouselCount := Some(0));
    }
    assert media == DirectMediaList(item);
    if |media| > 0 && media[0].previewUrl.None? {
      return None;
    }
    return Some(DirectWithMainMedia(c));
  }
}
