/**
 * URL handling of the scraper service: pulling the shortcode out of a post URL, the pre-flight
 * validity check, and classifying a URL by its path.
 */
module Urls {
  import opened Wrappers
  import opened Text
  import opened Content

  /** The patterns extractShortcode tries, in this order, each followed by `([A-Za-z0-9_-]+)` and
      matched without case. */
  const ShortcodePatterns: seq<string> :=
    ["instagram.com/p/", "instagram.com/reel/", "instagram.com/reels/", "instagram.com/tv/"]

  /** The content paths a valid URL may name, each with its closing slash. */
  const ContentPaths: seq<string> := ["p/", "reel/", "reels/", "tv/"]

  /** The position of the first pattern, from the k-th on, that matches anywhere in the URL, or
      the number of patterns when none does. */
  function FirstMatching(url: string, k: nat): (r: nat)
    requires k <= |ShortcodePatterns|
    ensures k <= r <= |ShortcodePatterns|
    ensures forall i :: k <= i < r ==> Capture(url, ShortcodePatterns[i], true).None?
    ensures r < |ShortcodePatterns| ==> Capture(url, ShortcodePatterns[r], true).Some?
    decreases |ShortcodePatterns| - k
  {
    if k == |ShortcodePatterns| || Capture(url, ShortcodePatterns[k], true).Some? then k
    else FirstMatching(url, k + 1)
  }

  /** The shortcode extractShortcode returns: the capture of the first pattern in order that
      matches (not the leftmost match of any pattern), or "" when none does. */
  function ShortcodeOf(url: string): (code: string)
    ensures code == "" <==> forall j :: 0 <= j < |ShortcodePatterns| ==> Capture(url, ShortcodePatterns[j], true).None?
    ensures code != "" ==> exists j :: 0 <= j < |ShortcodePatterns|
                                       && Capture(url, ShortcodePatterns[j], true) == Some(code)
                                       && forall i :: 0 <= i < j ==> Capture(url, ShortcodePatterns[i], true).None?
    ensures forall i :: 0 <= i < |code| ==> IsCodeChar(code[i])
  {
    var j := FirstMatching(url, 0);
    if j < |ShortcodePatterns| then Capture(url, ShortcodePatterns[j], true).value else ""
  }

  /** extractShortcode: tries the patterns in order and returns the first capture. */
  method ExtractShortcode(url: string) returns (code: string)
    ensures code == ShortcodeOf(url)
  {
    var patterns := ShortcodePatterns;
    for k := 0 to |patterns|
      invariant forall i :: 0 <= i < k ==> Capture(url, patterns[i], true).None?
    {
      var matches := Capture(url, patterns[k], true);
      if matches.Some? {
        assert FirstMatching(url, 0) == k;
        return matches.value;
      }
    }
    return "";
  }

  /** `^https?://(www\.)?instagram\.com/(p|reel|reels|tv)/[A-Za-z0-9_-]+`, matched with or
      without case; the optional trailing `/?` of the pattern never changes the outcome. */
  predicate UrlShape(url: string, ci: bool) {
    || (StartsWith(url, "http://", ci) && HostAndPath(url, 7, ci))
    || (StartsWith(url, "https://", ci) && HostAndPath(url, 8, ci))
  }

  predicate HostAndPath(url: string, i: nat, ci: bool) {
    || (LiteralAt(url, i, "instagram.com/", ci) && AnyCaptureAt(url, i + 14, ContentPaths, ci))
    || (LiteralAt(url, i, "www.instagram.com/", ci) && AnyCaptureAt(url, i + 18, ContentPaths, ci))
  }

  /** isValidUrl: the pattern is anchored at the start and, unlike the others, case-sensitive.
      A URL it accepts always yields a shortcode. */
  predicate IsValidUrl(url: string)
    ensures IsValidUrl(url) ==> ShortcodeOf(url) != ""
  {
    if UrlShape(url, false) then
      ShapeHasShortcode(url, false);
      true
    else false
  }

  /** "www.instagram.com/" at h contains "instagram.com/" at h + 4. */
  lemma WwwHostContainsHost(url: string, h: nat, ci: bool)
    requires LiteralAt(url, h, "www.instagram.com/", ci)
    ensures LiteralAt(url, h + 4, "instagram.com/", ci)
  {
    forall k | 0 <= k < 14 ensures CharMatches(url[h + 4 + k], "instagram.com/"[k], ci) {
      assert "www.instagram.com/"[k + 4] == "instagram.com/"[k];
      assert CharMatches(url[h + (k + 4)], "www.instagram.com/"[k + 4], ci);
    }
  }

  /** "instagram.com/" followed by a content path and a code character is a match of the
      corresponding shortcode pattern, which extractShortcode matches without case. */
  lemma HostAndContentPathMatch(url: string, j: nat, ci: bool)
    requires LiteralAt(url, j, "instagram.com/", ci) && AnyCaptureAt(url, j + 14, ContentPaths, ci)
    ensures ShortcodeOf(url) != ""
  {
    var k :| 0 <= k < |ContentPaths| && CaptureAt(url, j + 14, ContentPaths[k], ci);
    LiteralConcat(url, j, "instagram.com/", ContentPaths[k], ci);
    assert ShortcodePatterns[k] == "instagram.com/" + ContentPaths[k];
    if !ci {
      ExactImpliesFolded(url, j, ShortcodePatterns[k]);
    }
    assert CaptureAt(url, j, ShortcodePatterns[k], true);
  }

  /** A URL of the valid shape, with or without case, yields a non-empty shortcode; analyzeUrl
      can still reject it, since a shortcode "0" counts as empty there. */
  lemma ShapeHasShortcode(url: string, ci: bool)
    requires UrlShape(url, ci)
    ensures ShortcodeOf(url) != ""
  {
    var h: nat := if StartsWith(url, "http://", ci) && HostAndPath(url, 7, ci) then 7 else 8;
    assert HostAndPath(url, h, ci);
    if LiteralAt(url, h, "instagram.com/", ci) && AnyCaptureAt(url, h + 14, ContentPaths, ci) {
      HostAndContentPathMatch(url, h, ci);
    } else {
      WwwHostContainsHost(url, h, ci);
      HostAndContentPathMatch(url, h + 4, ci);
    }
  }

  /** detectContentType of the scraper (and, letter for letter, of the demo service). */
  function DetectContentType(url: string): (t: ContentType)
    ensures t == Reels <==> Contains(url, "instagram.com/reel/", true) || Contains(url, "instagram.com/reels/", true)
    ensures t == Video <==> t != Reels && Contains(url, "instagram.com/tv/", true)
    ensures t == Story <==> t != Reels && t != Video && Contains(url, "instagram.com/stories/", true)
    ensures t != Photo
  {
    if Contains(url, "instagram.com/reel/", true) || Contains(url, "instagram.com/reels/", true) then Reels
    else if Contains(url, "instagram.com/tv/", true) then Video
    else if Contains(url, "instagram.com/stories/", true) then Story
    else Post
  }
}
