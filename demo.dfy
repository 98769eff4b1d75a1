/**
 * The deterministic parts of the demo InstagramService: its single-pattern shortcode
 * extraction, file names, integer duration format, the shape of its option table and its cache
 * keyed by the whole URL. Its URL classification is the scraper's, letter for letter
 * (Urls.DetectContentType).
 */
module DemoService {
  import opened Wrappers
  import opened Text
  import opened Content
  import opened Caching
  import Urls
  import Parsers

  /** extractShortcode: one pattern with the alternation (?:p|reel|reels|tv), so the leftmost
      match in the URL wins, whichever path it is on. */
  function ExtractShortcode(url: string): (code: string)
    ensures code == "" <==> LeftmostAny(url, Urls.ShortcodePatterns, true, 0).None?
    ensures forall i :: 0 <= i < |code| ==> IsCodeChar(code[i])
  {
    CaptureAny(url, Urls.ShortcodePatterns, true).GetOr("")
  }

  /** The code the demo returns is the shortcode run after the leftmost position where some
      alternative matches, the alternative being the first in the list that matches there. */
  lemma ExtractShortcodeIsLeftmostMatch(url: string)
    requires ExtractShortcode(url) != ""
    ensures LeftmostAlternativeCapture(url, Urls.ShortcodePatterns, true, ExtractShortcode(url))
  {
    CaptureAnyIsLeftmostMatch(url, Urls.ShortcodePatterns, true);
  }

  /** Both extractors find a shortcode in exactly the same URLs. */
  lemma ExtractorsAgreeOnPresence(url: string)
    ensures ExtractShortcode(url) == "" <==> Urls.ShortcodeOf(url) == ""
  {
    var pats := Urls.ShortcodePatterns;
    if LeftmostAny(url, pats, true, 0).None? {
      forall j | 0 <= j < |pats| ensures Capture(url, pats[j], true).None? {
        forall q | 0 <= q <= |url| ensures !CaptureAt(url, q, pats[j], true) {
          assert !AnyCaptureAt(url, q, pats, true);
        }
      }
    } else {
      var p := LeftmostAny(url, pats, true, 0).value;
      var k :| 0 <= k < |pats| && CaptureAt(url, p, pats[k], true);
      assert Capture(url, pats[k], true).Some?;
    }
  }

  /** A URL naming a /tv/ post first and a /p/ post after it. */
  const TvThenPost: string := "instagram.com/tv/A/instagram.com/p/B"

  /** The /tv/ pattern matches at the start of the example, and no earlier pattern does. */
  lemma TvPatternAtStart()
    ensures CaptureAt(TvThenPost, 0, Urls.ShortcodePatterns[3], true)
  {
  }

  lemma OtherPatternsNotAtStart(k: nat)
    requires k < 3
    ensures !CaptureAt(TvThenPost, 0, Urls.ShortcodePatterns[k], true)
  {
    var url := TvThenPost;
    var lit := Urls.ShortcodePatterns[k];
    assert !CharMatches(url[0 + 14], lit[14], true);
  }

  /** The code after /tv/ in the example is A. */
  lemma TvCode()
    ensures RunEnd(TvThenPost, 17) == 18 && TvThenPost[17..18] == "A"
  {
    assert !IsCodeChar(TvThenPost[18]);
    assert RunEnd(TvThenPost, 18) == 18;
  }

  /** The demo service takes the /tv/ code, which comes first in the URL. */
  lemma DemoTakesLeftmost()
    ensures ExtractShortcode(TvThenPost) == "A"
  {
    var url := TvThenPost;
    var pats := Urls.ShortcodePatterns;
    TvPatternAtStart();
    assert AnyCaptureAt(url, 0, pats, true);
    assert LeftmostAny(url, pats, true, 0) == Some(0);
    OtherPatternsNotAtStart(0);
    OtherPatternsNotAtStart(1);
    OtherPatternsNotAtStart(2);
    assert FirstAlternative(url, 0, pats, true, 0) == 3;
    TvCode();
  }

  /** No match of the /p/ pattern starts before position 19 of the example. */
  lemma NoPostPatternBefore(q: nat)
    requires q < 19
    ensures !CaptureAt(TvThenPost, q, Urls.ShortcodePatterns[0], true)
  {
    var url := TvThenPost;
    var lit := Urls.ShortcodePatterns[0];
    if q == 0 {
      assert !CharMatches(url[q + 14], lit[14], true);
    } else {
      assert lit[0] == 'i';
      assert !CharMatches(url[q + 0], lit[0], true);
    }
  }

  /** The /p/ pattern matches at position 19 of the example. */
  lemma PostPatternAt19()
    ensures CaptureAt(TvThenPost, 19, Urls.ShortcodePatterns[0], true)
  {
  }

  /** The first position where the scraper's /p/ pattern matches in TvThenPost is 19. */
  lemma PostPatternPosition(p: nat)
    requires p < |TvThenPost| && CaptureAt(TvThenPost, p, Urls.ShortcodePatterns[0], true)
    requires forall q :: 0 <= q < p ==> !CaptureAt(TvThenPost, q, Urls.ShortcodePatterns[0], true)
    ensures p == 19
  {
    PostPatternAt19();
    if p < 19 {
      NoPostPatternBefore(p);
    }
  }

  /** The code after /p/ in the example is B. */
  lemma PostCode()
    ensures RunEnd(TvThenPost, 35) == 36 && TvThenPost[35..36] == "B"
  {
    assert RunEnd(TvThenPost, 36) == 36;
  }

  /** The scraper's /p/ pattern captures B in the example. */
  lemma PostPatternCapture()
    ensures Capture(TvThenPost, Urls.ShortcodePatterns[0], true) == Some("B")
  {
    var lit := Urls.ShortcodePatterns[0];
    PostPatternAt19();
    var c := Capture(TvThenPost, lit, true);
    CaptureIsLeftmostMatch(TvThenPost, lit, true);
    var p :| 0 <= p < |TvThenPost| && CaptureAt(TvThenPost, p, lit, true)
             && (forall q :: 0 <= q < p ==> !CaptureAt(TvThenPost, q, lit, true))
             && c.value == TvThenPost[p + |lit| .. RunEnd(TvThenPost, p + |lit|)];
    PostPatternPosition(p);
    PostCode();
  }

  /** The scraper takes the /p/ code, because /p/ comes first in its list of patterns. */
  lemma ScraperTakesFirstPattern()
    ensures Urls.ShortcodeOf(TvThenPost) == "B"
  {
    PostPatternCapture();
    assert Urls.FirstMatching(TvThenPost, 0) == 0;
  }

  /** The two extractors can disagree on a URL that names two posts. */
  lemma ExtractorsDiffer()
    ensures ExtractShortcode(TvThenPost) != Urls.ShortcodeOf(TvThenPost)
  {
    DemoTakesLeftmost();
    ScraperTakesFirstPattern();
  }

  /** generateFilename. */
  function GenerateFilename(shortcode: string, t: string, quality: string, format: string): (name: string)
    ensures var prefix := if t == "reels" then "instagram_reel"
                          else if t == "video" then "instagram_video"
                          else if t == "photo" then "instagram_photo"
                          else "instagram_content";
            name == prefix + "_" + shortcode + "_" + quality + "." + format
  {
    var prefix := match t
      case "reels" => "instagram_reel"
      case "video" => "instagram_video"
      case "photo" => "instagram_photo"
      case _ => "instagram_content";
    prefix + "_" + shortcode + "_" + quality + "." + format
  }

  /** `t` is digits, a colon and two more digits, and reads back as `seconds`: the digits
      before the colon are the whole minutes, written without leading zeros, and the two after
      it the remaining seconds, below 60. */
  predicate ReadsBackAs(t: string, seconds: nat) {
    && |t| >= 4 && t[|t| - 3] == ':'
    && (forall k :: 0 <= k < |t| && k != |t| - 3 ==> IsDigit(t[k]))
    && t[..|t| - 3] == NatToString(seconds / 60)
    && ParseDigits(t[|t| - 2..]) < 60
    && ParseDigits(t[..|t| - 3]) * 60 + ParseDigits(t[|t| - 2..]) == seconds
  }

  /** formatDuration on whole seconds: the floored minutes, a colon and the seconds (PHP's `%`,
      which keeps the sign of the dividend), padded to two digits. A non-negative duration reads
      back from its text; a negative one starts with a minus sign. */
  function FormatDuration(seconds: int): (t: string)
    ensures seconds >= 0 ==> ReadsBackAs(t, seconds)
    ensures seconds < 0 ==> |t| > 0 && t[0] == '-'
  {
    var t := IntToString(seconds / 60) + ":" + ZeroPad2(TruncMod(seconds, 60));
    if seconds >= 0 then
      DurationReadsBack(seconds);
      t
    else t
  }

  /** The padded seconds are two digits that read back as the number. */
  lemma PaddedSecondsReadBack(n: nat)
    requires n < 60
    ensures var secs := ZeroPad2(n);
            |secs| == 2 && IsDigit(secs[0]) && IsDigit(secs[1]) && ParseDigits(secs) == n
  {
    var secs := ZeroPad2(n);
    var hi, lo := n / 10, n % 10;
    if n < 10 {
      assert secs == [DigitChar(hi), DigitChar(lo)];
    } else {
      assert NatToString(n / 10) == [DigitChar(hi)];
      assert secs == [DigitChar(hi), DigitChar(lo)];
    }
    assert secs[..1] == [DigitChar(hi)];
    assert secs[..1][..0] == [];
    assert ParseDigits(secs[..1]) == hi;
  }

  /** The text of a non-negative duration reads back as the duration. */
  lemma DurationReadsBack(seconds: nat)
    ensures ReadsBackAs(IntToString(seconds / 60) + ":" + ZeroPad2(TruncMod(seconds, 60)), seconds)
  {
    var minutes := NatToString(seconds / 60);
    var secs := ZeroPad2(seconds % 60);
    var t := IntToString(seconds / 60) + ":" + ZeroPad2(TruncMod(seconds, 60));
    assert TruncMod(seconds, 60) == seconds % 60;
    assert t == minutes + ":" + secs;
    PaddedSecondsReadBack(seconds % 60);
    assert t[..|t| - 3] == minutes;
    assert t[|t| - 2..] == secs;
    ParseNatToString(seconds / 60);
  }

  /** The scraper's duration format on a non-negative number of seconds is this one on its whole
      part. */
  lemma DurationFormatsAgree(seconds: real)
    requires seconds >= 0.0
    ensures Parsers.FormatDurationReal(seconds) == FormatDuration(seconds.Floor)
  {
  }

  /** getDownloadOptions. The sizes are random in the source; here they are arguments, in MB for
      video content and in KB otherwise. */
  function GetDownloadOptions(t: ContentType, isVideo: bool, size1: int, size2: int, size3: int): (r: seq<DownloadOption>)
    ensures |r| == 3
    ensures isVideo || t == Reels ==> forall i :: 0 <= i < 3 ==> r[i].VideoOption?
    ensures !(isVideo || t == Reels) ==> forall i :: 0 <= i < 3 ==> r[i].ImageOption?
  {
    if isVideo || t == Reels then
      [ VideoOption("hd", "HD Quality", "1080p", "mp4", IntToString(size1) + " MB"),
        VideoOption("sd", "SD Quality", "720p", "mp4", IntToString(size2) + " MB"),
        VideoOption("audio", "Audio Only", "320kbps", "mp3", IntToString(size3) + " MB") ]
    else
      [ ImageOption("jpg", "JPG Format", "Original Quality \U{2022} Compressed", IntToString(size1) + " KB"),
        ImageOption("png", "PNG Format", "Lossless \U{2022} Best Quality", IntToString(size2) + " KB"),
        ImageOption("webp", "WebP Format", "Modern \U{2022} Optimized", IntToString(size3) + " KB") ]
  }

  /** Two options that differ at most in their size. */
  predicate SameShape(a: DownloadOption, b: DownloadOption) {
    a.(estimatedSize := "") == b.(estimatedSize := "")
  }

  /** With the video flag the demo derives from the type (video or reels), its options have the
      scraper's table's shape: the same qualities, titles and formats, whatever the sizes. */
  lemma OptionTablesAgree(t: ContentType, size1: int, size2: int, size3: int)
    ensures var isVideo := t == Video || t == Reels;
            var demo := GetDownloadOptions(t, isVideo, size1, size2, size3);
            var scraper := GenerateDownloadOptions(isVideo, t);
            forall i :: 0 <= i < 3 ==> SameShape(demo[i], scraper[i])
  {
  }

  /** The demo's cache key: the whole URL (the source's md5 is abstracted by the URL itself). */
  function UrlCacheKey(url: string): string {
    "instagram_" + url
  }

  const DemoCacheSeconds: nat := 3600

  /** analyzeUrl of the demo service; `fetch` stands for fetchContentData, which makes up random
      demo data. A hit returns the stored value without fetching; a miss stores the result. */
  method AnalyzeUrl<V>(url: string, cache: Cache<V>, fetch: (string, string, ContentType) -> V) returns (v: V)
    modifies cache
    ensures UrlCacheKey(url) in old(cache.entries) ==>
              v == old(cache.entries)[UrlCacheKey(url)].value && cache.entries == old(cache.entries)
    ensures UrlCacheKey(url) !in old(cache.entries) ==>
              && v == fetch(url, ExtractShortcode(url), Urls.DetectContentType(url))
              && cache.entries == old(cache.entries)[UrlCacheKey(url) := Entry(v, DemoCacheSeconds)]
  {
    var contentType := Urls.DetectContentType(url);
    var shortcode := ExtractShortcode(url);
    var key := UrlCacheKey(url);
    if cache.Has(key) {
      return cache.Get(key).value;
    }
    v := fetch(url, shortcode, contentType);
    cache.Put(key, v, DemoCacheSeconds);
  }
}
