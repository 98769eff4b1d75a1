/**
 * The download selection that the API controller and the download proxy controller each spell
 * out: which media item a request names, which url it offers, and the file name, type and
 * extension they derive. Both controllers repeat the same steps; they are stated once here.
 */
module Selection {
  import opened Wrappers
  import opened Text
  import opened Content
  import opened Renditions
  import opened Parsers

  /** PHP truthiness of a string that may be null: null, '' and '0' are false, any other
      string is true. */
  predicate Filled(s: Option<string>)
    ensures s.None? ==> !Filled(s)
    ensures Filled(s) ==> |s.value| > 0
    ensures s.Some? && |s.value| == 1 ==> (Filled(s) <==> s.value[0] != '0')
    ensures s.Some? && |s.value| >= 2 ==> Filled(s)
  {
    s.Some? && !EmptyText(s.value)
  }

  /** The `type` of a download: what the proxy later streams. */
  datatype FileType = VideoFile | AudioFile | ImageFile {
    function Name(): string {
      match this
      case VideoFile => "video"
      case AudioFile => "audio"
      case ImageFile => "image"
    }
  }

  const NoMediaMessage: string := "Could not fetch media from this URL"
  const NoUrlMessage: string := "Download URL not available"

  /** `$data['media'][$mediaIndex] ?? $data['media'][0]`: an index outside the list falls back
      to the first item instead of failing. */
  function PickMedia(media: seq<Media>, index: int): (m: Media)
    requires |media| > 0
    ensures m in media
    ensures 0 <= index < |media| ==> m == media[index]
    ensures !(0 <= index < |media|) ==> m == media[0]
  {
    if 0 <= index < |media| then media[index] else media[0]
  }

  /** A photo's url: the `src` of the widest resource (the first of equal widths, as the stable
      descending sort leaves it), else the preview url. */
  function PhotoSource(m: Media): (u: Option<string>)
    ensures m.resources.Some? && |m.resources.value| > 0 ==>
              var rs := m.resources.value;
              && u == Some(rs[WidestIndex(rs, ResourceWidth)].src)
              && forall j :: 0 <= j < |rs| ==> rs[j].width <= rs[WidestIndex(rs, ResourceWidth)].width
    ensures !(m.resources.Some? && |m.resources.value| > 0) ==> u == m.previewUrl
  {
    if m.resources.Some? && |m.resources.value| > 0 then
      SortDescHead(m.resources.value, ResourceWidth);
      Some(SortDesc(m.resources.value, ResourceWidth)[0].src)
    else m.previewUrl
  }

  /** The url a controller offers for one media item: a video's own url (no choice among its
      versions), or the photo source. */
  function ItemUrl(m: Media): (u: Option<string>)
    ensures m.kind == VideoMedia ==> u == m.videoUrl
    ensures m.kind == PhotoMedia ==> u == PhotoSource(m)
  {
    if m.kind == VideoMedia then m.videoUrl else PhotoSource(m)
  }

  /** A video is delivered as audio when the format is 'mp3' or the quality is 'audio'. */
  predicate AudioRequested(format: Option<string>, quality: string) {
    format == Some("mp3") || quality == "audio"
  }

  /** `$format ?: 'jpg'`: a missing or falsy format becomes jpg. */
  function OrJpg(format: Option<string>): (ext: string)
    ensures Filled(format) ==> ext == format.value
    ensures !Filled(format) ==> ext == "jpg"
  {
    if Filled(format) then format.value else "jpg"
  }

  /** What a single-item download resolves to. */
  datatype Pick = Pick(item: Media, url: string, filename: string, ftype: FileType, ext: string)

  /** The selection getDownloadUrl and directDownload share, for a quality, an optional format
      and a media index already defaulted. */
  function SelectDownload(data: Content, quality: string, format: Option<string>, mediaIndex: int): (r: Result<Pick, string>)
    ensures |data.media| == 0 ==> r == Failure(NoMediaMessage)
    ensures |data.media| > 0 ==>
              var m := PickMedia(data.media, mediaIndex);
              && (r.Failure? <==> !Filled(ItemUrl(m)))
              && (r.Failure? ==> r.error == NoUrlMessage)
              && (r.Success? ==> r.value.item == m && Some(r.value.url) == ItemUrl(m))
    ensures r.Success? && r.value.item.kind == VideoMedia ==>
              var audio := AudioRequested(format, quality);
              && r.value.ext == (if audio then "mp3" else "mp4")
              && r.value.ftype == (if audio then AudioFile else VideoFile)
              && r.value.filename == "instagram_" + data.ctype.Name() + "_" + data.shortcode + "." + r.value.ext
    ensures r.Success? && r.value.item.kind == PhotoMedia ==>
              && r.value.ext == OrJpg(format)
              && r.value.ftype == ImageFile
              && r.value.filename == "instagram_photo_" + data.shortcode + "_" + IntToString(mediaIndex) + "." + r.value.ext
  {
    if |data.media| == 0 then Failure(NoMediaMessage)
    else
      var m := PickMedia(data.media, mediaIndex);
      var url := ItemUrl(m);
      if !Filled(url) then Failure(NoUrlMessage)
      else if m.kind == VideoMedia then
        var audio := AudioRequested(format, quality);
        var ext := if audio then "mp3" else "mp4";
        Success(Pick(m, url.value, "instagram_" + data.ctype.Name() + "_" + data.shortcode + "." + ext,
                     if audio then AudioFile else VideoFile, ext))
      else
        var ext := OrJpg(format);
        Success(Pick(m, url.value, "instagram_photo_" + data.shortcode + "_" + IntToString(mediaIndex) + "." + ext,
                     ImageFile, ext))
  }

  /** An entry of a carousel or bulk download list. */
  datatype BundleEntry = BundleEntry(index: nat, ftype: FileType, url: string, filename: string, ext: string,
                                     resolution: Option<string>)

  /** The positions, below n and in increasing order, of the media items that have a url. */
  function Kept(media: seq<Media>, n: nat): (ks: seq<nat>)
    requires n <= |media|
    ensures |ks| <= n
    ensures forall j :: 0 <= j < |ks| ==> ks[j] < n && Filled(ItemUrl(media[ks[j]]))
    ensures forall i :: 0 <= i < n && Filled(ItemUrl(media[i])) ==> i in ks
    ensures forall j, k :: 0 <= j < k < |ks| ==> ks[j] < ks[k]
  {
    if n == 0 then []
    else Kept(media, n - 1) + (if Filled(ItemUrl(media[n - 1])) then [n - 1] else [])
  }

  /** The entry for media item i. Its file name carries the number i + base (the API counts
      from 1, the proxy from 0); videos are always mp4, photos take the requested format. */
  function EntryFor(data: Content, i: nat, format: string, base: int, withResolution: bool): (e: BundleEntry)
    requires i < |data.media| && Filled(ItemUrl(data.media[i]))
    ensures e.index == i && Some(e.url) == ItemUrl(data.media[i])
    ensures data.media[i].kind == VideoMedia ==>
              e.ftype == VideoFile && e.ext == "mp4"
              && e.filename == "instagram_video_" + data.shortcode + "_" + IntToString(i + base) + ".mp4"
    ensures data.media[i].kind == PhotoMedia ==>
              e.ftype == ImageFile && e.ext == format
              && e.filename == "instagram_photo_" + data.shortcode + "_" + IntToString(i + base) + "." + format
    ensures e.resolution == if withResolution then data.media[i].resolution else None
  {
    var m := data.media[i];
    var res := if withResolution then m.resolution else None;
    if m.kind == VideoMedia then
      BundleEntry(i, VideoFile, m.videoUrl.value, "instagram_video_" + data.shortcode + "_" + IntToString(i + base) + ".mp4",
                  "mp4", res)
    else
      BundleEntry(i, ImageFile, PhotoSource(m).value,
                  "instagram_photo_" + data.shortcode + "_" + IntToString(i + base) + "." + format, format, res)
  }

  /** The entries for the positions ks, in that order. */
  function Entries(data: Content, ks: seq<nat>, format: string, base: int, withResolution: bool): (es: seq<BundleEntry>)
    requires forall j :: 0 <= j < |ks| ==> ks[j] < |data.media| && Filled(ItemUrl(data.media[ks[j]]))
    ensures |es| == |ks|
    ensures forall j :: 0 <= j < |ks| ==> es[j] == EntryFor(data, ks[j], format, base, withResolution)
  {
    seq(|ks|, j requires 0 <= j < |ks| => EntryFor(data, ks[j], format, base, withResolution))
  }

  /** The download list of the first n media items. */
  function BundleUpTo(data: Content, n: nat, format: string, base: int, withResolution: bool): seq<BundleEntry>
    requires n <= |data.media|
  {
    Entries(data, Kept(data.media, n), format, base, withResolution)
  }

  /** The whole download list: one entry per media item with a url, in media order. What it
      holds is stated by BundleFacts. */
  function Bundle(data: Content, format: string, base: int, withResolution: bool): (b: seq<BundleEntry>)
    ensures |b| <= |data.media|
    ensures forall j :: 0 <= j < |b| ==> b[j].index < |data.media| && Filled(ItemUrl(data.media[b[j].index]))
  {
    BundleUpTo(data, |data.media|, format, base, withResolution)
  }

  /** Extending the list by one media item appends its entry exactly when it has a url. */
  lemma BundleStep(data: Content, n: nat, format: string, base: int, withResolution: bool)
    requires n < |data.media|
    ensures Filled(ItemUrl(data.media[n])) ==>
              BundleUpTo(data, n + 1, format, base, withResolution)
              == BundleUpTo(data, n, format, base, withResolution) + [EntryFor(data, n, format, base, withResolution)]
    ensures !Filled(ItemUrl(data.media[n])) ==>
              BundleUpTo(data, n + 1, format, base, withResolution) == BundleUpTo(data, n, format, base, withResolution)
  {
    var ks := Kept(data.media, n);
    if Filled(ItemUrl(data.media[n])) {
      assert Kept(data.media, n + 1) == ks + [n];
    } else {
      assert Kept(data.media, n + 1) == ks;
    }
  }

  /** The download list keeps media order, names every item that has a url exactly once and
      no item without one, and gives each entry its item's url. */
  lemma BundleFacts(data: Content, format: string, base: int, withResolution: bool)
    ensures var b := Bundle(data, format, base, withResolution);
            && (forall j :: 0 <= j < |b| ==> b[j].index < |data.media| && Some(b[j].url) == ItemUrl(data.media[b[j].index]))
            && (forall j, k :: 0 <= j < k < |b| ==> b[j].index < b[k].index)
            && (forall i :: 0 <= i < |data.media| && Filled(ItemUrl(data.media[i])) ==>
                  exists j :: 0 <= j < |b| && b[j].index == i)
            && (forall j :: 0 <= j < |b| ==> Filled(ItemUrl(data.media[b[j].index])))
  {
    var ks := Kept(data.media, |data.media|);
    var b := Bundle(data, format, base, withResolution);
    forall i | 0 <= i < |data.media| && Filled(ItemUrl(data.media[i])) ensures exists j :: 0 <= j < |b| && b[j].index == i {
      var j :| 0 <= j < |ks| && ks[j] == i;
      assert b[j].index == i;
    }
  }

  /** The carousel list of the API and the bulk list of the proxy name the same items with the
      same urls, types and extensions; only the number in the file name and the resolution
      differ. */
  lemma BulkMatchesCarousel(data: Content, format: string)
    ensures var api := Bundle(data, format, 1, true);
            var proxy := Bundle(data, format, 0, false);
            && |api| == |proxy|
            && forall j :: 0 <= j < |api| ==>
                 && api[j].index == proxy[j].index && api[j].url == proxy[j].url
                 && api[j].ftype == proxy[j].ftype && api[j].ext == proxy[j].ext
  {
  }
}
