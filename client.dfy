/**
 * The two URL helpers of the page script: the badge it shows for a pasted URL and the check it
 * makes before sending the URL to the API. Both use JavaScript regular expressions with the `i`
 * flag, so they fold case where the server's validity check does not.
 */
module ClientHelpers {
  import opened Wrappers
  import opened Text
  import opened Content
  import Urls

  /** The badge for a detected URL: the `type`, `label` (here `title`) and `color` of the script's object. */
  datatype Detection = Detection(kind: string, title: string, color: string)

  const ReelsBadge: Detection := Detection("reels", "Instagram Reels detected", "bg-pink-100 text-pink-700")
  const StoryBadge: Detection := Detection("story", "Instagram Story detected", "bg-purple-100 text-purple-700")
  const VideoBadge: Detection := Detection("video", "IGTV Video detected", "bg-purple-100 text-purple-700")
  const PostBadge: Detection := Detection("post", "Instagram Post detected", "bg-orange-100 text-orange-700")

  predicate MentionsReels(url: string) {
    Contains(url, "instagram.com/reel/", true) || Contains(url, "instagram.com/reels/", true)
  }

  /** detectContentType of the page: reels, then stories, then tv, then posts; null (None) for
      a URL that names none of them. */
  function DetectBadge(url: string): (d: Option<Detection>)
    ensures d == Some(ReelsBadge) <==> MentionsReels(url)
    ensures d == Some(StoryBadge) <==> !MentionsReels(url) && Contains(url, "instagram.com/stories/", true)
    ensures d == Some(VideoBadge) <==> !MentionsReels(url) && !Contains(url, "instagram.com/stories/", true)
                                       && Contains(url, "instagram.com/tv/", true)
    ensures d == Some(PostBadge) <==> !MentionsReels(url) && !Contains(url, "instagram.com/stories/", true)
                                      && !Contains(url, "instagram.com/tv/", true) && Contains(url, "instagram.com/p/", true)
    ensures d.Some? ==> d.value in {ReelsBadge, StoryBadge, VideoBadge, PostBadge}
  {
    if MentionsReels(url) then Some(ReelsBadge)
    else if Contains(url, "instagram.com/stories/", true) then Some(StoryBadge)
    else if Contains(url, "instagram.com/tv/", true) then Some(VideoBadge)
    else if Contains(url, "instagram.com/p/", true) then Some(PostBadge)
    else None
  }

  /** The server's content type that a badge stands for. */
  function BadgeType(d: Detection): ContentType {
    if d == ReelsBadge then Reels
    else if d == StoryBadge then Story
    else if d == VideoBadge then Video
    else Post
  }

  /** A URL without a badge is a post on the server, whose last case is the default. */
  lemma NoBadgeIsPost(url: string)
    requires DetectBadge(url).None?
    ensures Urls.DetectContentType(url) == Post
  {
  }

  /** The badge and the server's detectContentType agree except on a URL that names both
      stories and tv and no reels: the page tests stories first, the server tv. */
  lemma BadgeAgreesWithServer(url: string)
    requires DetectBadge(url).Some?
    ensures BadgeType(DetectBadge(url).value) != Urls.DetectContentType(url) <==>
              !MentionsReels(url) && Contains(url, "instagram.com/stories/", true) && Contains(url, "instagram.com/tv/", true)
  {
  }

  /** isValidInstagramUrl: the server's URL shape, matched without case. Since extractShortcode
      folds case too, the server finds a shortcode in every URL the page lets through. */
  predicate IsValidInstagramUrl(url: string)
    ensures IsValidInstagramUrl(url) ==> Urls.ShortcodeOf(url) != ""
  {
    if Urls.UrlShape(url, true) then
      Urls.ShapeHasShortcode(url, true);
      true
    else false
  }

  /** A literal written in lower case. */
  predicate LowerLiteral(lit: string) {
    forall k :: 0 <= k < |lit| ==> !('A' <= lit[k] <= 'Z')
  }

  lemma ExactCaptureFolds(s: string, i: nat, lit: string)
    requires LowerLiteral(lit) && CaptureAt(s, i, lit, false)
    ensures CaptureAt(s, i, lit, true)
  {
    ExactImpliesFolded(s, i, lit);
  }

  lemma ExactHostFolds(url: string, i: nat)
    requires Urls.HostAndPath(url, i, false)
    ensures Urls.HostAndPath(url, i, true)
  {
    var j := if LiteralAt(url, i, "instagram.com/", false) && AnyCaptureAt(url, i + 14, Urls.ContentPaths, false)
             then i + 14 else i + 18;
    assert AnyCaptureAt(url, j, Urls.ContentPaths, false);
    var k :| 0 <= k < |Urls.ContentPaths| && CaptureAt(url, j, Urls.ContentPaths[k], false);
    ExactCaptureFolds(url, j, Urls.ContentPaths[k]);
    if j == i + 14 {
      ExactImpliesFolded(url, i, "instagram.com/");
    } else {
      ExactImpliesFolded(url, i, "www.instagram.com/");
    }
  }

  /** Every URL the server accepts also passes the page's check. */
  lemma ServerValidIsClientValid(url: string)
    requires Urls.IsValidUrl(url)
    ensures IsValidInstagramUrl(url)
  {
    ExactShapeFolds(url);
  }

  /** The URL shape matched exactly is also matched without case. */
  lemma ExactShapeFolds(url: string)
    requires Urls.UrlShape(url, false)
    ensures Urls.UrlShape(url, true)
  {
    if StartsWith(url, "http://", false) && Urls.HostAndPath(url, 7, false) {
      ExactImpliesFolded(url, 0, "http://");
      ExactHostFolds(url, 7);
    } else {
      ExactImpliesFolded(url, 0, "https://");
      ExactHostFolds(url, 8);
    }
  }

  /** Folding case in the pattern is the same as lower-casing the URL first. */
  lemma FoldedCaptureIsLowered(s: string, i: nat, lit: string)
    ensures CaptureAt(s, i, lit, true) <==> CaptureAt(Lower(s), i, lit, false)
  {
    if i + |lit| < |s| {
      assert IsCodeChar(s[i + |lit|]) <==> IsCodeChar(Lower(s)[i + |lit|]);
    }
  }

  lemma FoldedLiteralIsLowered(s: string, i: nat, lit: string)
    ensures LiteralAt(s, i, lit, true) <==> LiteralAt(Lower(s), i, lit, false)
  {
  }

  lemma FoldedHostIsLowered(url: string, i: nat)
    ensures Urls.HostAndPath(url, i, true) <==> Urls.HostAndPath(Lower(url), i, false)
  {
    FoldedLiteralIsLowered(url, i, "instagram.com/");
    FoldedLiteralIsLowered(url, i, "www.instagram.com/");
    forall j: nat, k | 0 <= k < |Urls.ContentPaths|
      ensures CaptureAt(url, j, Urls.ContentPaths[k], true) <==> CaptureAt(Lower(url), j, Urls.ContentPaths[k], false)
    {
      FoldedCaptureIsLowered(url, j, Urls.ContentPaths[k]);
    }
  }

  /** The page accepts a URL exactly when the server would accept its lower-cased form. */
  lemma ClientValidIsLoweredServerValid(url: string)
    ensures IsValidInstagramUrl(url) <==> Urls.IsValidUrl(Lower(url))
  {
    FoldedLiteralIsLowered(url, 0, "http://");
    FoldedLiteralIsLowered(url, 0, "https://");
    FoldedHostIsLowered(url, 7);
    FoldedHostIsLowered(url, 8);
  }

  /** A URL written with a capital letter in its host. */
  const CapitalHost: string := "https://Instagram.com/p/A"

  lemma CapitalHostScheme()
    ensures StartsWith(CapitalHost, "https://", true)
  {
  }

  lemma CapitalHostHost()
    ensures LiteralAt(CapitalHost, 8, "instagram.com/", true)
  {
  }

  lemma CapitalHostPath()
    ensures CaptureAt(CapitalHost, 22, Urls.ContentPaths[0], true)
  {
  }

  lemma ClientAcceptsCapitalHost()
    ensures IsValidInstagramUrl(CapitalHost)
  {
    CapitalHostScheme();
    CapitalHostHost();
    CapitalHostPath();
    assert AnyCaptureAt(CapitalHost, 8 + 14, Urls.ContentPaths, true);
  }

  lemma ServerRejectsCapitalHost()
    ensures !Urls.IsValidUrl(CapitalHost)
  {
    var url := CapitalHost;
    assert !CharMatches(url[0 + 4], "http://"[4], false);
    assert !CharMatches(url[8 + 0], "instagram.com/"[0], false);
    assert !CharMatches(url[8 + 0], "www.instagram.com/"[0], false);
  }

  /** The page lets this URL through; the server's case-sensitive check rejects it. */
  lemma ClientAcceptsWhatServerRejects()
    ensures IsValidInstagramUrl(CapitalHost) && !Urls.IsValidUrl(CapitalHost)
  {
    ClientAcceptsCapitalHost();
    ServerRejectsCapitalHost();
  }
}
