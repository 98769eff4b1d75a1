/**
 * The canonical content record that every parser of the scraper produces, the per-item media
 * record inside it, and the two fixed tables built from it: the download options and the
 * image MIME types.
 */
module Content {
  import opened Wrappers
  import opened Text

  /** The record's `type`: what the post is. Story comes only from URL classification. */
  datatype ContentType = Photo | Video | Reels | Post | Story {
    /** The string the source stores under `type`. */
    function Name(): string {
      match this
      case Photo => "photo"
      case Video => "video"
      case Reels => "reels"
      case Post => "post"
      case Story => "story"
    }
  }

  /** A media item's `type`: the parsers only ever write 'photo' or 'video'. */
  datatype MediaType = PhotoMedia | VideoMedia

  /** An entry of `resources`: an image rendition with its url under `src`. */
  datatype Resource = Resource(src: string, width: int, height: int)

  /** An image candidate or video version as the direct API delivers it. */
  datatype Rendition = Rendition(url: string, width: Option<int>, height: Option<int>)

  /** One element of `media`. A field is None when the source leaves its key out or stores null. */
  datatype Media = Media(
    index: int,
    kind: MediaType,
    previewUrl: Option<string>,
    thumbnailUrl: Option<string>,
    videoUrl: Option<string>,
    videoVersions: Option<seq<Rendition>>,
    duration: Option<string>,
    views: Option<int>,
    width: Option<int>,
    height: Option<int>,
    resolution: Option<string>,
    resources: Option<seq<Resource>>)

  /** The array that analyzeUrl returns (its constant `success => true` key is not represented). */
  datatype Content = Content(
    shortcode: string,
    ctype: ContentType,
    isVideo: bool,
    isCarousel: bool,
    username: string,
    userId: Option<string>,
    userAvatar: string,
    userFullName: Option<string>,
    takenAt: Option<int>,
    caption: string,
    likes: Option<int>,
    comments: Option<int>,
    previewUrl: Option<string>,
    thumbnailUrl: Option<string>,
    media: seq<Media>,
    carouselCount: Option<nat>,
    duration: Option<string>,
    resolution: Option<string>,
    downloadOptions: Option<seq<DownloadOption>>)

  /** An entry of `download_options`. */
  datatype DownloadOption =
    | VideoOption(quality: string, title: string, resolution: string, format: string, estimatedSize: string)
    | ImageOption(format: string, title: string, description: string, estimatedSize: string)

  const DefaultAvatar: string := "https://ui-avatars.com/api/?name=IG&background=E1306C&color=fff&size=150"

  /** "{width} × {height}", the `resolution` text. For sizes that are not negative it reads
      back: the digits before the separator give the width, those after it the height. */
  function Resolution(width: int, height: int): (r: string)
    ensures width >= 0 && height >= 0 ==>
              var k := |NatToString(width)|;
              && k + 3 <= |r| && r[k..k + 3] == " \U{D7} "
              && (forall j :: 0 <= j < k ==> IsDigit(r[j])) && ParseDigits(r[..k]) == width
              && (forall j :: k + 3 <= j < |r| ==> IsDigit(r[j])) && ParseDigits(r[k + 3..]) == height
  {
    var r := IntToString(width) + " \U{D7} " + IntToString(height);
    if width >= 0 && height >= 0 then
      var w, h := NatToString(width), NatToString(height);
      assert r == w + " \U{D7} " + h;
      assert r[..|w|] == w && r[|w| + 3..] == h;
      ParseNatToString(width);
      ParseNatToString(height);
      r
    else r
  }

  /** Different non-negative sizes give different resolution texts. */
  lemma ResolutionInjective(w1: nat, h1: nat, w2: nat, h2: nat)
    requires Resolution(w1, h1) == Resolution(w2, h2)
    ensures w1 == w2 && h1 == h2
  {
    var r := Resolution(w1, h1);
    var k1, k2 := |NatToString(w1)|, |NatToString(w2)|;
    // Each width's text ends at the first character of r that is not a digit.
    assert !IsDigit(r[k1]) && !IsDigit(r[k2]);
    assert k1 == k2;
  }

  const DefaultResolution: string := Resolution(1080, 1080)

  /** Whether the download options offered are the video ones. */
  predicate OffersVideo(isVideo: bool, t: ContentType) {
    isVideo || t == Video || t == Reels
  }

  /** generateDownloadOptions: three video qualities for video content, else three image formats.
      Only the estimated sizes depend on whether the content is a reel. */
  function GenerateDownloadOptions(isVideo: bool, t: ContentType): (r: seq<DownloadOption>)
    ensures |r| == 3
    ensures OffersVideo(isVideo, t) ==>
      && (forall i :: 0 <= i < 3 ==> r[i].VideoOption?)
      && [r[0].quality, r[1].quality, r[2].quality] == ["hd", "sd", "audio"]
      && [r[0].format, r[1].format, r[2].format] == ["mp4", "mp4", "mp3"]
    ensures !OffersVideo(isVideo, t) ==>
      && (forall i :: 0 <= i < 3 ==> r[i].ImageOption?)
      && [r[0].format, r[1].format, r[2].format] == ["jpg", "png", "webp"]
    ensures OffersVideo(isVideo, t) ==>
      [r[0].estimatedSize, r[1].estimatedSize] == (if t == Reels then ["~12 MB", "~6 MB"] else ["~15 MB", "~8 MB"])
  {
    if OffersVideo(isVideo, t) then
      [ VideoOption("hd", "HD Quality", "1080p", "mp4", if t == Reels then "~12 MB" else "~15 MB"),
        VideoOption("sd", "SD Quality", "720p", "mp4", if t == Reels then "~6 MB" else "~8 MB"),
        VideoOption("audio", "Audio Only", "320kbps", "mp3", "~3 MB") ]
    else
      [ ImageOption("jpg", "JPG Format", "Original Quality \U{2022} Compressed", "~500 KB"),
        ImageOption("png", "PNG Format", "Lossless \U{2022} Best Quality", "~1.2 MB"),
        ImageOption("webp", "WebP Format", "Modern \U{2022} Optimized", "~300 KB") ]
  }

  /** getImageMimeType: png, webp and gif by their lower-cased name, everything else JPEG. */
  function GetImageMimeType(format: string): (m: string)
    ensures m == "image/png" <==> Lower(format) == "png"
    ensures m == "image/webp" <==> Lower(format) == "webp"
    ensures m == "image/gif" <==> Lower(format) == "gif"
    ensures m == "image/jpeg" <==> Lower(format) != "png" && Lower(format) != "webp" && Lower(format) != "gif"
  {
    match Lower(format)
    case "png" => "image/png"
    case "webp" => "image/webp"
    case "gif" => "image/gif"
    case _ => "image/jpeg"
  }
}
