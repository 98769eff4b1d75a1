/**
 * The scraper's pipeline: analyzeUrl with its cache and its cascade of fetch strategies, and
 * getDownloadUrl with its choice of rendition. Each HTTP request is an oracle that yields the
 * decoded response. Where the strategy's outcome depends on how a request failed, the oracle
 * tells a request that threw from one that was answered without the expected object.
 */
module Scraper {
  import opened Wrappers
  import opened Text
  import opened Content
  import opened Renditions
  import opened Parsers
  import opened Caching
  import opened Selection
  import Urls

  /** How one request of the web-page strategy ended: it threw (a time-out or a connection
      error), it was answered without what the strategy looks for (a non-2xx status, or no
      `items[0]`), or it delivered the decoded value. */
  datatype Reply<T> = Threw | NotOk | Ok(value: T)

  /** The remote endpoints, by the argument the request is built from. */
  datatype Network = Network(
    graphQL: string -> Option<GraphMedia>,   // query by shortcode: data.shortcode_media
    oEmbed: string -> Option<OEmbedData>,    // the oEmbed endpoint for the post URL
    embedPage: string -> Reply<EmbedPage>,   // the captioned embed page of the shortcode
    directApi: string -> Reply<DirectItem>,  // the `__a=1` page of the shortcode: items[0]
    webPage: string -> Option<GraphMedia>)   // the post page itself: the media parseWebPage finds

  datatype Strategy = GraphQL | OEmbed | WebPage

  /** The order in which analyzeUrl tries the strategies. */
  const Order: seq<Strategy> := [GraphQL, OEmbed, WebPage]

  const InvalidUrlMessage: string := "Invalid Instagram URL. Could not extract shortcode."
  const UnavailableMessage: string := "Unable to fetch Instagram content. The post may be private or deleted."

  /** How long a result stays cached, in seconds. */
  const CacheSeconds: nat := 1800

  /** fetchViaGraphQL. */
  function ViaGraphQL(net: Network, shortcode: string, now: int): (r: Option<Content>)
    ensures r.Some? <==> net.graphQL(shortcode).Some?
    ensures r.Some? ==> r.value == GraphQLContent(net.graphQL(shortcode).value, now)
  {
    match net.graphQL(shortcode)
    case Some(m) => Some(GraphQLContent(m, now))
    case None => None
  }

  /** fetchViaOEmbed. */
  function ViaOEmbed(net: Network, url: string): (r: Option<Content>)
    ensures r.Some? <==> net.oEmbed(url).Some?
    ensures r.Some? ==> r.value == OEmbedContent(net.oEmbed(url).value, url)
  {
    match net.oEmbed(url)
    case Some(d) => Some(OEmbedContent(d, url))
    case None => None
  }

  /** The record the embed page yields: its parse when the request was answered, else none. */
  function EmbedRecord(net: Network, shortcode: string, now: int): Option<Content> {
    match net.embedPage(shortcode)
    case Ok(page) => EmbedContent(page, shortcode, now)
    case _ => None
  }

  /** fetchViaWebPage: the embed page when it yields a record; else, when the `__a=1` request
      returns an item, whatever parseDirectResponse makes of it (a parse that throws ends the
      strategy with null, without trying the page itself); else the post page. One `try` wraps
      the three requests, so a request that throws ends the strategy with null at once, while
      one answered without the expected object moves on to the next. */
  function ViaWebPage(net: Network, url: string, shortcode: string, now: int): (r: Option<Content>)
    ensures net.embedPage(shortcode).Threw? ==> r.None?
    ensures var embed := EmbedRecord(net, shortcode, now);
            !net.embedPage(shortcode).Threw? ==>
              && (embed.Some? ==> r == embed)
              && (embed.None? && net.directApi(shortcode).Threw? ==> r.None?)
              && (embed.None? && net.directApi(shortcode).Ok? ==> r == DirectContent(net.directApi(shortcode).value))
              && (embed.None? && net.directApi(shortcode).NotOk? ==>
                    (r.Some? <==> net.webPage(url).Some?)
                    && (r.Some? ==> r.value == GraphQLContent(net.webPage(url).value, now)))
  {
    if net.embedPage(shortcode).Threw? then None
    else
      var embed := EmbedRecord(net, shortcode, now);
      if embed.Some? then embed
      else
        match net.directApi(shortcode)
        case Threw => None
        case Ok(item) => DirectContent(item)
        case NotOk => if net.webPage(url).Some? then Some(GraphQLContent(net.webPage(url).value, now)) else None
  }

  /** What one strategy returns. */
  function Outcome(net: Network, url: string, shortcode: string, now: int, s: Strategy): Option<Content> {
    match s
    case GraphQL => ViaGraphQL(net, shortcode, now)
    case OEmbed => ViaOEmbed(net, url)
    case WebPage => ViaWebPage(net, url, shortcode, now)
  }

  /** The cascade: the result of the first strategy, in order, that returns one. */
  function Cascade(net: Network, url: string, shortcode: string, now: int): (r: Option<Content>)
    ensures r.None? <==> forall i :: 0 <= i < |Order| ==> Outcome(net, url, shortcode, now, Order[i]).None?
    ensures r.Some? ==> exists i :: 0 <= i < |Order| && r == Outcome(net, url, shortcode, now, Order[i])
                                    && forall j :: 0 <= j < i ==> Outcome(net, url, shortcode, now, Order[j]).None?
  {
    assert Order[0] == GraphQL && Order[1] == OEmbed && Order[2] == WebPage;
    var g := ViaGraphQL(net, shortcode, now);
    if g.Some? then
      assert g == Outcome(net, url, shortcode, now, Order[0]);
      g
    else
      var o := ViaOEmbed(net, url);
      if o.Some? then
        assert o == Outcome(net, url, shortcode, now, Order[1]);
        o
      else
        assert ViaWebPage(net, url, shortcode, now) == Outcome(net, url, shortcode, now, Order[2]);
        ViaWebPage(net, url, shortcode, now)
  }

  /** The strategies the cascade runs: those up to and including the first that returns a
      record, or all three. */
  function Attempted(net: Network, url: string, shortcode: string, now: int): (tried: seq<Strategy>)
    ensures 1 <= |tried| <= |Order| && tried == Order[..|tried|]
    ensures forall j :: 0 <= j < |tried| - 1 ==> Outcome(net, url, shortcode, now, tried[j]).None?
    ensures Cascade(net, url, shortcode, now) == Outcome(net, url, shortcode, now, tried[|tried| - 1])
    ensures Cascade(net, url, shortcode, now).None? ==> |tried| == |Order|
  {
    if ViaGraphQL(net, shortcode, now).Some? then [GraphQL]
    else if ViaOEmbed(net, url).Some? then [GraphQL, OEmbed]
    else [GraphQL, OEmbed, WebPage]
  }

  /** The fallback chain of analyzeUrl: each strategy runs only while `data` is still null. */
  method RunCascade(net: Network, url: string, shortcode: string, now: int)
    returns (data: Option<Content>, ghost tried: seq<Strategy>)
    ensures data == Cascade(net, url, shortcode, now)
    ensures tried == Attempted(net, url, shortcode, now)
  {
    data := ViaGraphQL(net, shortcode, now);
    tried := [GraphQL];
    if data.None? {
      data := ViaOEmbed(net, url);
      tried := tried + [OEmbed];
    }
    if data.None? {
      data := ViaWebPage(net, url, shortcode, now);
      tried := tried + [WebPage];
    }
  }

  /** Every record the cascade returns offers the download options of its own type, and every
      media item in it is well formed. */
  lemma CascadeWellFormed(net: Network, url: string, shortcode: string, now: int)
    requires Cascade(net, url, shortcode, now).Some?
    ensures OptionsFitContent(Cascade(net, url, shortcode, now).value)
    ensures var c := Cascade(net, url, shortcode, now).value;
            forall i :: 0 <= i < |c.media| ==> WellFormedMedia(c.media[i])
  {
    var c := Cascade(net, url, shortcode, now).value;
    if net.graphQL(shortcode).Some? {
      assert c == GraphQLContent(net.graphQL(shortcode).value, now);
    } else if net.oEmbed(url).Some? {
      assert c == OEmbedContent(net.oEmbed(url).value, url);
    } else {
      assert c == ViaWebPage(net, url, shortcode, now).value;
      ViaWebPageWellFormed(net, url, shortcode, now);
    }
  }

  lemma ViaWebPageWellFormed(net: Network, url: string, shortcode: string, now: int)
    requires ViaWebPage(net, url, shortcode, now).Some?
    ensures OptionsFitContent(ViaWebPage(net, url, shortcode, now).value)
    ensures var c := ViaWebPage(net, url, shortcode, now).value;
            forall i :: 0 <= i < |c.media| ==> WellFormedMedia(c.media[i])
  {
    var c := ViaWebPage(net, url, shortcode, now).value;
    var embed := EmbedRecord(net, shortcode, now);
    if embed.Some? {
      assert c == embed.value;
    } else if net.directApi(shortcode).Ok? {
      var item := net.directApi(shortcode).value;
      assert c.media == DirectMediaList(item);
    } else {
      assert c == GraphQLContent(net.webPage(url).value, now);
    }
  }

  /** The cache key of a shortcode. The source hashes the shortcode with md5; the hash is
      abstracted by the shortcode itself, which keeps distinct shortcodes apart. */
  function CacheKey(shortcode: string): string {
    "instagram_" + shortcode
  }

  lemma CacheKeyInjective(a: string, b: string)
    requires CacheKey(a) == CacheKey(b)
    ensures a == b
  {
    assert a == CacheKey(a)[10..];
    assert b == CacheKey(b)[10..];
  }

  /** analyzeUrl: a shortcode that empty() holds for (the missing one, and also "0") is rejected
      before the cache or any strategy is consulted. `tried` records the strategies that ran, in order; `now` stands for time(). */
  method AnalyzeUrl(url: string, cache: Cache<Content>, net: Network, now: int)
    returns (r: Result<Content, string>, ghost tried: seq<Strategy>)
    modifies cache
    ensures var shortcode := Urls.ShortcodeOf(url);
            EmptyText(shortcode) ==> r == Failure(InvalidUrlMessage) && tried == [] && cache.entries == old(cache.entries)
    ensures var shortcode := Urls.ShortcodeOf(url);
            !EmptyText(shortcode) && CacheKey(shortcode) in old(cache.entries) ==>
              && r == Success(old(cache.entries)[CacheKey(shortcode)].value)
              && tried == [] && cache.entries == old(cache.entries)
    ensures var shortcode := Urls.ShortcodeOf(url);
            !EmptyText(shortcode) && CacheKey(shortcode) !in old(cache.entries) ==>
              var outcome := Cascade(net, url, shortcode, now);
              && tried == Attempted(net, url, shortcode, now)
              && (outcome.Some? ==> && r == Success(outcome.value)
                                    && cache.entries == old(cache.entries)[CacheKey(shortcode) := Entry(outcome.value, CacheSeconds)])
              && (outcome.None? ==> r == Failure(UnavailableMessage) && cache.entries == old(cache.entries))
  {
    var shortcode := Urls.ExtractShortcode(url);
    tried := [];
    if EmptyText(shortcode) {
      return Failure(InvalidUrlMessage), tried;
    }
    var key := CacheKey(shortcode);
    if cache.Has(key) {
      return Success(cache.Get(key).value), tried;
    }
    var data;
    data, tried := RunCascade(net, url, shortcode, now);
    if data.None? {
      return Failure(UnavailableMessage), tried;
    }
    cache.Put(key, data.value, CacheSeconds);
    return Success(data.value), tried;
  }

  /** Two analyses of URLs with the same shortcode: once the first has succeeded, the second is
      answered from the cache with the same record and runs no strategy. */
  method AnalyzeTwice(url1: string, url2: string, cache: Cache<Content>, net: Network, now1: int, now2: int)
    returns (r1: Result<Content, string>, r2: Result<Content, string>, ghost tried2: seq<Strategy>)
    requires Urls.ShortcodeOf(url1) == Urls.ShortcodeOf(url2)
    modifies cache
    ensures r1.Success? ==> r2 == r1 && tried2 == []
  {
    ghost var tried1;
    r1, tried1 := AnalyzeUrl(url1, cache, net, now1);
    r2, tried2 := AnalyzeUrl(url2, cache, net, now2);
  }

  /** What getDownloadUrl returns. Width and height are present for images only. */
  datatype DownloadLink = DownloadLink(url: string, filename: string, ftype: FileType, quality: Option<string>,
                                       format: string, mimeType: string, width: Option<int>, height: Option<int>)

  /** getDownloadUrl: only the first media item is used. A video takes the narrowest version
      for 'sd' and the widest for any other quality; an image takes its widest resource. `now`
      stands for the time() in the file name. */
  method GetDownloadUrl(data: Content, quality: string, format: string, now: int) returns (r: Result<DownloadLink, string>)
    ensures |data.media| == 0 ==> r == Failure("No media found")
    ensures |data.media| > 0 && data.media[0].kind == VideoMedia ==>
              var m := data.media[0];
              var audio := format == "mp3";
              && (!Filled(m.videoUrl) <==> r.Failure?)
              && (r.Failure? ==> r.error == "Video URL not available")
              && (r.Success? ==>
                    && r.value.url == (if m.videoVersions.Some? && |m.videoVersions.value| > 0 then
                                         var vs := m.videoVersions.value;
                                         if quality == "sd" then vs[NarrowestIndex(vs, RenditionWidth)].url
                                         else vs[WidestIndex(vs, RenditionWidth)].url
                                       else m.videoUrl.value)
                    && r.value.format == (if audio then "mp3" else "mp4")
                    && r.value.ftype == (if audio then AudioFile else VideoFile)
                    && r.value.mimeType == (if audio then "audio/mpeg" else "video/mp4")
                    && r.value.quality == Some(quality)
                    && r.value.filename == "instagram_video_" + IntToString(now) + "." + r.value.format)
    ensures |data.media| > 0 && data.media[0].kind == PhotoMedia ==>
              var m := data.media[0];
              && (!Filled(m.previewUrl) <==> r.Failure?)
              && (r.Failure? ==> r.error == "Image URL not available")
              && (r.Success? ==>
                    && Some(r.value.url) == PhotoSource(m)
                    && r.value.format == format && r.value.ftype == ImageFile
                    && r.value.mimeType == GetImageMimeType(format)
                    && r.value.quality.None?
                    && r.value.width == Some(m.width.GetOr(1080)) && r.value.height == Some(m.height.GetOr(1080))
                    && r.value.filename == "instagram_photo_" + IntToString(now) + "." + format)
  {
    if |data.media| == 0 {
      return Failure("No media found");
    }
    var media := data.media[0];
    if media.kind == VideoMedia {
      var videoUrl := media.videoUrl;
      if !Filled(videoUrl) {
        return Failure("Video URL not available");
      }
      var url := videoUrl.value;
      if media.videoVersions.Some? {
        var versions := media.videoVersions.value;
        if quality == "sd" {
          versions := SortAsc(versions, RenditionWidth);
          if |versions| > 0 {
            SortAscHead(media.videoVersions.value, RenditionWidth);
            url := versions[0].url;
          }
        } else {
          versions := SortDesc(versions, RenditionWidth);
          if |versions| > 0 {
            SortDescHead(media.videoVersions.value, RenditionWidth);
            url := versions[0].url;
          }
        }
      }
      var audio := format == "mp3";
      var filename := "instagram_video_" + IntToString(now);
      var ext := if audio then "mp3" else "mp4";
      return Success(DownloadLink(url, filename + "." + ext, if audio then AudioFile else VideoFile, Some(quality),
                                  ext, if audio then "audio/mpeg" else "video/mp4", None, None));
    } else {
      var imageUrl := media.previewUrl;
      if !Filled(imageUrl) {
        return Failure("Image URL not available");
      }
      var url := imageUrl.value;
      if media.resources.Some? {
        var resources := SortDesc(media.resources.value, ResourceWidth);
        if |resources| > 0 {
          url := resources[0].src;
        }
      }
      var filename := "instagram_photo_" + IntToString(now);
      return Success(DownloadLink(url, filename + "." + format, ImageFile, None, format, GetImageMimeType(format),
                                  Some(media.width.GetOr(1080)), Some(media.height.GetOr(1080))));
    }
  }
}
