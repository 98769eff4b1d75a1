# Instagram downloader: content resolver and download selection

This project models the server side of a Laravel Instagram downloader in Dafny, and the two
URL helpers of its page script. It covers:

- **URL handling** (`Urls`). `extractShortcode` tries four case-insensitive patterns in a
  fixed order. `isValidUrl` is an anchored, case-sensitive check. `detectContentType` sorts a
  URL into reels, video, story or post.
- **Resolver pipeline** (`Scraper`, `Caching`). `analyzeUrl` rejects a URL whose shortcode
  is empty in PHP's sense: missing, or the single character `0`. It then looks in a cache keyed by the shortcode. On a miss it runs three fetch
  strategies (GraphQL, oEmbed, web page), keeps the first non-null result as it is, and stores
  it for 1800 seconds. The web-page strategy tries the embed page, then the `__a=1` direct
  API, then the post page. Each HTTP request is an oracle (a field of `Network`) that returns
  the decoded response or None.
- **Parsers** (`Parsers`). The GraphQL, oEmbed, embed-page (after its regular expressions
  have matched) and direct-API parsers each build the one content record (`Content.Content`).
- **Selectors and tables** (`Renditions`, `Content`, `Scraper.GetDownloadUrl`). The width
  sorts are stable, as PHP 8's `usort` is. They pick the widest or narrowest rendition. The
  download-option table and the MIME tables are fixed.
- **Controllers** (`Selection`, `ApiController`, `DownloadProxy`).
  - Picking a media item by index, falling back to the first.
  - File name, extension, type and MIME of a single download.
  - The carousel and bulk lists, which skip items without a url.
  - The proxy's logged type and Content-Type tables.
- **Demo service** (`DemoService`). Its one-pattern shortcode extractor, file names, integer
  duration format, option-table shape and URL-keyed cache.
- **Page script** (`ClientHelpers`). The badge detection and the case-insensitive URL check.

Some PHP behaviour is written out explicitly:

- `??` becomes `Option.GetOr`.
- PHP truthiness of a string becomes `Selection.Filled`: null, `''` and `'0'` are false.
- `%` keeps the sign of the dividend (`Text.TruncMod`).
- A float is cast to int by truncation (`Text.Trunc`).
- `%02d` becomes `Text.ZeroPad2`.

Laravel turns an "undefined array key" warning into an exception. Reading `preview_url` of a
direct-API item without image candidates therefore throws. The web-page strategy catches that
exception and returns null without trying the post page, and `Parsers.DirectContent` returns
None in that case.

The code keeps the first non-null strategy result whole. It does not merge partial results
from several strategies, and neither does the model.

The controllers' own call to `analyzeUrl` is not repeated in each controller method. The
analyzed record is an argument of the method: when `analyzeUrl` throws, the controller answers
with its message and the selection code is never reached.

Properties the model proves:

- A URL that passes `isValidUrl`, or the page's case-insensitive check, always yields a
  non-empty shortcode (`Urls.IsValidUrl`, `ClientHelpers.IsValidInstagramUrl`). That shortcode
  can still be `0`, which `analyzeUrl` rejects.
- The two shortcode extractors find a shortcode in the same URLs
  (`DemoService.ExtractorsAgreeOnPresence`). They can still return different codes:
  `instagram.com/tv/A/instagram.com/p/B` gives "A" in the demo and "B" in the scraper
  (`DemoService.ExtractorsDiffer`).
- The page's URL check accepts every URL the server accepts, and exactly those whose
  lower-cased form the server accepts. `https://Instagram.com/p/A` passes on the page and is
  refused by the server (`ClientHelpers.ClientAcceptsWhatServerRejects`).
- The page's badge and the server's classification differ only on a URL that names both
  `/stories/` and `/tv/` and no reel (`ClientHelpers.BadgeAgreesWithServer`).
- The API's carousel list and the proxy's bulk list name the same items, with the same urls,
  types and extensions (`Selection.BulkMatchesCarousel`).
- A second analysis of the same shortcode is answered from the cache with the same record and
  runs no strategy (`Scraper.AnalyzeTwice`).

## Model

Source paths are relative to the repository root. Two tables are written twice in the source and modelled once: the API controller repeats the image MIME types (app/Http/Controllers/Api/InstagramController.php:335-343, modelled by Content.GetImageMimeType), and the demo service repeats the URL classification (app/Services/InstagramService.php:64-80, modelled by Urls.DetectContentType).

| member | source | states |
|---|---|---|
| Text.Lower | app/Services/InstagramScraperService.php:750 | strtolower: same length, each character ASCII-lowered |
| Text.Capture | app/Services/InstagramScraperService.php:689-691 | preg_match of `lit([A-Za-z0-9_-]+)`: None exactly when no position matches; otherwise a non-empty group of shortcode characters |
| Text.CaptureIsLeftmostMatch | app/Services/InstagramScraperService.php:689-691 | a captured group is the maximal code run after the leftmost position where the pattern matches, and no earlier position matches |
| Text.CaptureAny | app/Services/InstagramService.php:87 | preg_match of an alternation followed by `([A-Za-z0-9_-]+)`: None exactly when no alternative matches anywhere; otherwise a non-empty group of shortcode characters |
| Text.LeftmostAny | app/Services/InstagramService.php:87 | an alternation pattern matches first at the leftmost position where any alternative matches, and nowhere before it |
| Text.FirstAlternative | app/Services/InstagramService.php:87 | at a match position, the alternation takes the first alternative, in order, that matches |
| Text.RunEnd | app/Services/InstagramScraperService.php:683 | the greedy `[A-Za-z0-9_-]+` consumes every shortcode character from its start and stops at the first other character or the end |
| Text.ParseNatToString | app/Services/InstagramService.php:209 | reading back the decimal text `%d` prints gives the number |
| Text.EmptyText | app/Services/InstagramScraperService.php:41 | PHP `empty()` on a string: true for '' and for '0', false for every other one-character string and every longer one |
| Text.Trunc | app/Services/InstagramScraperService.php:741 | a float operand of `%` becomes the integer within one of it on the side of zero |
| Text.TruncMod | app/Services/InstagramService.php:208 | PHP `%`: differs from the dividend by a multiple of the divisor, is smaller than the divisor in size, and has the dividend's sign (0 up for a non-negative dividend, 0 down for a negative one), which fixes it uniquely |
| Text.ZeroPad2 | app/Services/InstagramService.php:209 | `%02d`: a leading zero for 0..9, the plain decimal text otherwise |
| Renditions.WidestIndex | app/Services/InstagramScraperService.php:572-573 | the position of the first entry of greatest width: no entry is wider, every earlier one is narrower |
| Renditions.NarrowestIndex | app/Services/InstagramScraperService.php:568-569 | the position of the first entry of least width: no entry is narrower, every earlier one is wider |
| Renditions.InsertDesc | app/Services/InstagramScraperService.php:472 | one insertion step of the stable sort: one element longer, and the multiset of the input plus the inserted element |
| Renditions.SortDesc | app/Services/InstagramScraperService.php:472 | the widest-first usort: a permutation of its input (same length, same multiset), in descending width order |
| Renditions.SortAsc | app/Services/InstagramScraperService.php:568 | the narrowest-first usort: a permutation of its input, in ascending width order |
| Renditions.SortDescHead | app/Services/InstagramScraperService.php:572-573 | after the stable widest-first sort, element 0 is the first of the widest entries |
| Renditions.SortAscHead | app/Services/InstagramScraperService.php:568-569 | after the stable narrowest-first sort, element 0 is the first of the narrowest entries |
| Content.Resolution | app/Services/InstagramScraperService.php:271 | the `{width} × {height}` text; for non-negative sizes the digits before ` × ` read back as the width and those after it as the height |
| Content.ResolutionInjective | app/Services/InstagramScraperService.php:313 | two non-negative sizes with the same resolution text are the same size |
| Content.GenerateDownloadOptions | app/Services/InstagramScraperService.php:623-674 | three options: hd/sd/audio with mp4/mp4/mp3 for video, video-typed or reels content, else jpg/png/webp; reels get the smaller size estimates |
| Content.GetImageMimeType | app/Services/InstagramScraperService.php:748-756 | png, webp and gif by their lower-cased name, each in both directions; every other format is image/jpeg |
| Urls.FirstMatching | app/Services/InstagramScraperService.php:689-693 | the index of the first pattern, in list order, that matches; every earlier pattern fails |
| Urls.ShortcodeOf | app/Services/InstagramScraperService.php:679-696 | '' exactly when no pattern matches; otherwise the capture of a pattern all of whose predecessors fail, made of shortcode characters |
| Urls.ExtractShortcode | app/Services/InstagramScraperService.php:679-696 | the loop over the patterns with its early return yields ShortcodeOf |
| Urls.IsValidUrl | app/Services/InstagramScraperService.php:769-775 | the anchored, case-sensitive URL check; every URL it accepts yields a non-empty shortcode |
| Urls.ShapeHasShortcode | app/Services/InstagramScraperService.php:769-775 | a URL of the valid shape, matched with or without case, has a non-empty shortcode |
| Urls.DetectContentType | app/Services/InstagramScraperService.php:701-713 | reels exactly when /reel/ or /reels/ occurs; else video exactly when /tv/ occurs; else story exactly when /stories/ occurs; else post; never photo |
| Parsers.ExtractCaption | app/Services/InstagramScraperService.php:727-733 | the first caption edge's text, else `caption`, else '' |
| Parsers.IsReels | app/Services/InstagramScraperService.php:718-722 | true exactly when product_type is present and is 'clips' or 'reels' |
| Parsers.FormatDurationReal | app/Services/InstagramScraperService.php:738-743 | for non-negative seconds: the floored minutes, a colon, and the whole seconds modulo 60 padded to two digits |
| Parsers.ExtractMediaInfo | app/Services/InstagramScraperService.php:247-285 | a well-formed item: its index, video iff is_video; preview and thumbnail fallbacks; video fields only for videos; dimensions defaulting to 1080; resources carried over |
| Parsers.ChildMedia | app/Services/InstagramScraperService.php:222-226 | one item per carousel child, each extracted with its own position as index |
| Parsers.VideoContentType | app/Services/InstagramScraperService.php:196-199 | photo iff not a video; reels iff a video whose product type is a reel; video otherwise |
| Parsers.WithMainMedia | app/Services/InstagramScraperService.php:233-239 | with a first item: its duration, its resolution or the 1080 default, and the options table of the record's type; without one: the record unchanged; no other field changes |
| Parsers.GraphQLHeader | app/Services/InstagramScraperService.php:193-220 | the record before its media: the post's shortcode, carousel iff GraphSidecar, video iff is_video, type from is_video and isReels; the fallbacks '@unknown', the default avatar, full name '', timestamp `now`, likes and comments 0, preview_url from display_url, then thumbnail_src, then ''; no media and no options yet |
| Parsers.GraphQLMedia | app/Services/InstagramScraperService.php:222-231 | one indexed item per child for a carousel with children, else the post itself as item 0; every item well formed |
| Parsers.GraphQLContent | app/Services/InstagramScraperService.php:191-242 | carousel iff GraphSidecar; video iff is_video; type from is_video and isReels; the GraphQLMedia list, with carousel_count its length for a carousel with children and 0 otherwise; options fit the type; with media, the first item's duration and resolution ('1080 × 1080' when it has none), and no duration, resolution or options without; every post-level field is the header's |
| Parsers.ParseGraphQLResponse | app/Services/InstagramScraperService.php:191-242 | the loop that appends one item per child builds GraphQLContent |
| Parsers.OEmbedContent | app/Services/InstagramScraperService.php:290-319 | a single photo item at index 0; shortcode from the original URL; preview, thumbnail and item url all the thumbnail url; '@unknown', the default avatar and an empty caption as fallbacks; item width and height the thumbnail's, 1080 by default, and the item's and the record's resolution `w × h` from them; photo options |
| Parsers.EmbedContent | app/Services/InstagramScraperService.php:328-397 | embedded JSON goes through the GraphQL parser; otherwise null exactly when neither image nor video was found; not a carousel; a photo item first with the '1080 × 1080' resolution, a video item last whose preview is the image url or '' and which has no resolution, both at index 0 (the source numbers neither); video type iff a video element; '@unknown', the default avatar and an empty caption as fallbacks; options of its type |
| Parsers.ToResourcesDescending | app/Services/InstagramScraperService.php:477-481 | mapping candidates to resources keeps the descending width order |
| Parsers.ToResourcesPermutes | app/Services/InstagramScraperService.php:477-481 | array_map over two permutations of the same candidates gives two permutations of the same resources |
| Parsers.SortedRenditions | app/Services/InstagramScraperService.php:470-481 | after the widest-first sort the head is the first widest candidate, and the resources are a permutation of the candidates' resources in descending width |
| Parsers.DirectMediaItem | app/Services/InstagramScraperService.php:460-498 | video iff video_versions is set; preview, width and height from the first widest candidate; resources a descending permutation of the candidates; video url the first widest version, versions a descending permutation |
| Parsers.DirectMediaList | app/Services/InstagramScraperService.php:434-442 | one item per carousel element with its position as index, or the item itself at index 0 |
| Parsers.DirectHeader | app/Services/InstagramScraperService.php:409-432 | the record before its media: code or '', video iff video_versions, carousel iff carousel_media, reels only for 'clips'; the fallbacks '@unknown', the default avatar, an empty caption, likes and comments 0; no preview and no options yet |
| Parsers.DirectWithMainMedia | app/Services/InstagramScraperService.php:444-452 | preview, duration and resolution from the first item when there is one; options of the record's type in every case; no other field changes |
| Parsers.DirectContent | app/Services/InstagramScraperService.php:409-455 | null (the thrown warning) exactly when the first item has no preview; else the record with the media list, code, carousel flag, video flag, clips-only reels type, the header's owner, caption and counts, and options; with media, preview, duration and resolution ('1080 × 1080' when none) from the first item, and none of the three without |
| Parsers.ParseDirectResponse | app/Services/InstagramScraperService.php:409-455 | the loop over carousel elements and the early failure yield DirectContent |
| Caching.Cache.Get | app/Services/InstagramScraperService.php:48-49 | Cache::get returns a value exactly when Cache::has holds, and it is the stored one |
| Caching.Cache.Put | app/Services/InstagramScraperService.php:68 | the key now maps to the value and TTL; every other key is unchanged |
| Scraper.ViaGraphQL | app/Services/InstagramScraperService.php:76-107 | a record exactly when the query returns shortcode_media, and then the GraphQL parse of it |
| Scraper.ViaOEmbed | app/Services/InstagramScraperService.php:112-133 | a record exactly when the oEmbed request succeeds, and then its parse with the original URL |
| Scraper.ViaWebPage | app/Services/InstagramScraperService.php:138-186 | null as soon as a request throws; otherwise the embed record if any; else the direct-API parse (null included) when items[0] exists; else, after a non-2xx answer or no items[0], the post page's media through the GraphQL parser |
| Scraper.Cascade | app/Services/InstagramScraperService.php:53-61 | null exactly when all three strategies return null; otherwise the result of a strategy all of whose predecessors returned null |
| Scraper.Attempted | app/Services/InstagramScraperService.php:53-61 | the strategies run form a prefix of GraphQL, oEmbed, web page; all but the last returned null; the cascade's result is the last one's; all three run when it is null |
| Scraper.RunCascade | app/Services/InstagramScraperService.php:53-61 | the reassignments of `$data` compute Cascade and run exactly Attempted |
| Scraper.ViaWebPageWellFormed | app/Services/InstagramScraperService.php:138-186 | every record the web-page strategy returns offers the options of its own type and has only well-formed media items |
| Scraper.CascadeWellFormed | app/Services/InstagramScraperService.php:53-61 | every record the cascade returns offers the options of its own type and has only well-formed media items |
| Scraper.CacheKeyInjective | app/Services/InstagramScraperService.php:45 | distinct shortcodes have distinct cache keys |
| Scraper.AnalyzeUrl | app/Services/InstagramScraperService.php:37-71 | a shortcode empty() holds for ('' or "0"): the invalid-URL error, no lookup, no strategy; hit: the stored record, no strategy; miss: the cascade's record stored for 1800 s, or the unavailable error with the cache unchanged |
| Scraper.AnalyzeTwice | app/Services/InstagramScraperService.php:45-50 | after a successful analysis, one of the same shortcode returns the same record and runs no strategy |
| Scraper.GetDownloadUrl | app/Services/InstagramScraperService.php:534-618 | media[0] only; videos: an error without video_url, narrowest version for sd, widest otherwise, video_url as fallback, mp3 relabelled audio/mpeg; images: an error without preview_url, widest resource, MIME by format, dimensions defaulting to 1080 |
| Selection.PickMedia | app/Http/Controllers/Api/InstagramController.php:135 | media[index] when the index is in range, else media[0] |
| Selection.PhotoSource | app/Http/Controllers/Api/InstagramController.php:146-153 | the src of the first widest resource when there are resources, else preview_url |
| Selection.ItemUrl | app/Http/Controllers/Api/InstagramController.php:139-153 | a video's own video_url, a photo's PhotoSource |
| Selection.OrJpg | app/Http/Controllers/Api/InstagramController.php:155 | `$format ?: 'jpg'`: the format when truthy, else jpg |
| Selection.SelectDownload | app/Http/Controllers/Api/InstagramController.php:130-163 | the no-media error; the no-url error exactly when the picked item has no truthy url; videos: mp3/audio iff format mp3 or quality audio, named by content type and shortcode; photos: OrJpg, named with the requested index |
| Selection.Filled | app/Http/Controllers/Api/InstagramController.php:252 | PHP truthiness of a nullable string: null, '' and '0' are false, every other string is true |
| Selection.Bundle | app/Http/Controllers/Api/InstagramController.php:231-269 | the reference definition of `$downloads`: at most one entry per media item, each for an item with a url (BundleFacts gives order and completeness) |
| Selection.Kept | app/Http/Controllers/Api/InstagramController.php:232-252 | the positions below n with a url, each exactly once, in increasing order |
| Selection.EntryFor | app/Http/Controllers/Api/InstagramController.php:233-268 | an entry keeps its index and url; videos mp4, photos the format; the file name numbered i + base |
| Selection.BundleStep | app/Http/Controllers/Api/InstagramController.php:252-269 | one more media item appends its entry exactly when it has a url |
| Selection.BundleFacts | app/Http/Controllers/Api/InstagramController.php:231-277 | the list is in media order, names every item with a url, no item without one, each with its url |
| Selection.BulkMatchesCarousel | app/Http/Controllers/DownloadProxyController.php:197-235 | the proxy's bulk list and the API's carousel list have the same length, indices, urls, types and extensions |
| ApiController.MimeFor | app/Http/Controllers/Api/InstagramController.php:143-158 | audio/mpeg for audio, video/mp4 for video, the image MIME table for images |
| ApiController.GetDownloadUrl | app/Http/Controllers/Api/InstagramController.php:121-194 | fails exactly when SelectDownload does, with its message; otherwise its url, name, type and extension, quality defaulting to hd, MimeFor and the item's resolution |
| ApiController.GetCarouselDownloads | app/Http/Controllers/Api/InstagramController.php:221-279 | the no-media error exactly when media is empty; otherwise the shortcode, the bundle numbered from 1 with resolutions, and total its length |
| DownloadProxy.LoggedContentType | app/Http/Controllers/DownloadProxyController.php:47 | image is logged as photo, audio as video, any other type as it is |
| DownloadProxy.GetContentType | app/Http/Controllers/DownloadProxyController.php:327-345 | video/mp4 and audio/mpeg by type; otherwise png, webp, gif, mp4 and mp3 by lower-cased format, each in both directions, and image/jpeg for the rest |
| DownloadProxy.ContentTypeMatchesImageMime | app/Http/Controllers/DownloadProxyController.php:337-344 | for images, the proxy's table equals the scraper's image MIME table exactly when the format is not mp4 or mp3 |
| DownloadProxy.Download | app/Http/Controllers/DownloadProxyController.php:37-58 | format defaults to mp4, quality to hd; the logged type and the Content-Type of those |
| DownloadProxy.DirectDownload | app/Http/Controllers/DownloadProxyController.php:82-162 | fails exactly when SelectDownload does, with its message; otherwise its url, name, type and extension, and the Content-Type when streaming |
| DownloadProxy.StreamTypeMatchesApiMime | app/Http/Controllers/DownloadProxyController.php:141-143 | the streamed Content-Type differs from the API's MIME type exactly for an image requested as mp4 or mp3 |
| DownloadProxy.BulkDownload | app/Http/Controllers/DownloadProxyController.php:184-253 | the no-media error exactly when media is empty; otherwise the bundle numbered from 0 without resolutions, and total its length |
| DemoService.ExtractShortcode | app/Services/InstagramService.php:85-89 | '' exactly when no alternative matches anywhere; otherwise only shortcode characters (which code: ExtractShortcodeIsLeftmostMatch) |
| DemoService.ExtractShortcodeIsLeftmostMatch | app/Services/InstagramService.php:85-89 | a non-empty result is the code run after the leftmost position where some alternative matches, the alternative being the first in order that matches there |
| DemoService.ExtractorsAgreeOnPresence | app/Services/InstagramService.php:85-89 | the demo finds a shortcode exactly when the scraper does |
| DemoService.DemoTakesLeftmost | app/Services/InstagramService.php:87 | on a URL naming /tv/A before /p/B, the demo returns A |
| DemoService.ScraperTakesFirstPattern | app/Services/InstagramScraperService.php:682-693 | on the same URL the scraper returns B, since /p/ is its first pattern |
| DemoService.ExtractorsDiffer | app/Services/InstagramService.php:87 | the two extractors return different shortcodes for that URL |
| DemoService.GenerateFilename | app/Services/InstagramService.php:190-200 | `{prefix}_{shortcode}_{quality}.{format}` with the reel, video, photo or content prefix |
| DemoService.FormatDuration | app/Services/InstagramService.php:205-210 | for non-negative seconds: the whole minutes without leading zeros, a colon, two digits below 60, and minutes times 60 plus those seconds give the input; for negative seconds the text starts with a minus sign |
| DemoService.DurationReadsBack | app/Services/InstagramService.php:205-210 | the `%d:%02d` text of a non-negative duration reads back as the duration |
| DemoService.DurationFormatsAgree | app/Services/InstagramService.php:205-210 | the scraper's float formatter on non-negative seconds equals this one on the whole seconds |
| DemoService.GetDownloadOptions | app/Services/InstagramService.php:125-173 | three options, all video ones for video or reels, all image ones otherwise |
| DemoService.OptionTablesAgree | app/Services/InstagramService.php:125-173 | apart from the sizes, the demo's table equals the scraper's for the same video flag and type |
| DemoService.AnalyzeUrl | app/Services/InstagramService.php:14-38 | keyed by the whole URL: a hit returns the stored value without fetching; a miss fetches with the detected type and shortcode and stores for 3600 s |
| ClientHelpers.DetectBadge | resources/views/layouts/app.blade.php:284-314 | reels badge iff /reel/ or /reels/; then story, tv and post in that order, each in both directions; null otherwise |
| ClientHelpers.NoBadgeIsPost | resources/views/layouts/app.blade.php:313 | a URL without a badge is a post on the server |
| ClientHelpers.BadgeAgreesWithServer | resources/views/layouts/app.blade.php:292-305 | the badge's type differs from the server's exactly when stories and tv occur and no reel |
| ClientHelpers.IsValidInstagramUrl | resources/views/layouts/app.blade.php:316-318 | the page's case-insensitive URL check; the server finds a shortcode in every URL it accepts |
| ClientHelpers.ServerValidIsClientValid | resources/views/layouts/app.blade.php:316-318 | every URL isValidUrl accepts passes isValidInstagramUrl |
| ClientHelpers.ClientValidIsLoweredServerValid | resources/views/layouts/app.blade.php:316-318 | isValidInstagramUrl accepts a URL exactly when isValidUrl accepts its lower-cased form |
| ClientHelpers.ClientAcceptsCapitalHost | resources/views/layouts/app.blade.php:316-318 | `https://Instagram.com/p/A` passes the page's case-insensitive check |
| ClientHelpers.ServerRejectsCapitalHost | app/Services/InstagramScraperService.php:769-775 | the same URL fails the server's case-sensitive isValidUrl |
| ClientHelpers.ClientAcceptsWhatServerRejects | resources/views/layouts/app.blade.php:316-318 | `https://Instagram.com/p/A` passes the page's check and fails the server's |

## Left out

- Network I/O: each HTTP request, with its headers, timeout and status check, is an oracle
  that returns the decoded response or None. A failed request is None. For GraphQL, a
  response without `data.shortcode_media` is None too. The embed page and the direct API
  answer with a three-way reply instead: the request threw, it was answered without what the
  strategy looks for (a non-2xx status, or no `items[0]`), or it delivered the decoded value.
- Scraper.ViaOEmbed: a successful oEmbed response whose body is not a JSON object is not
  modelled. fetchViaOEmbed passes it straight to parseOEmbedResponse, whose `array` parameter
  then raises a TypeError. `catch (Exception $e)` does not catch a TypeError, so the whole of
  analyzeUrl fails and the web-page strategy never runs. The oracle yields only decoded
  objects or None.
- Regular expressions over raw HTML and JSON text (the patterns of parseEmbedPage and
  parseWebPage), json_decode, strip_tags and html_entity_decode are library behaviour. The
  parsers start from what these produced (`EmbedPage`, `GraphMedia`, `DirectItem`,
  `OEmbedData`).
- A missing required key (for example `shortcode` in a GraphQL node), and the TypeError or
  exception it would raise, is not modelled: such keys are plain fields. The one warning that
  changes the outcome, parseDirectResponse reading `preview_url`, is modelled.
- date() and time(): `post_date` is not represented. time(), used for `timestamp` and for the
  scraper's time-stamped download file names, is the parameter `now`.
- Scraper.CacheKey: md5 is abstracted by the shortcode itself. Distinct shortcodes give
  distinct keys (Scraper.CacheKeyInjective), which is all the cache logic relies on.
- DemoService.UrlCacheKey: the demo's md5 of the URL is abstracted the same way.
- Caching.Cache: there is no TTL expiry and no concurrent misses. The TTL is recorded but
  never consulted.
- Parsers.FormatDurationReal: computes on exact reals, not IEEE doubles; `round()` of the
  integer remainder changes nothing.
- Floating point elsewhere: formatBytes in the download proxy and the views' formatNumber.
- Controller plumbing: rate limiting, request validation, JSON responses, the proxy_url built
  with route() and http_build_query, streaming, getFileSize, and the analyze endpoint around
  analyzeUrl.
- Persistence: DownloadHistory logging, the history and stats queries, the model and its
  migration.
- Demo randomness: fetchContentData and generateDownloadUrl, with getDownloadUrl's random
  download_url, are random. fetchContentData is the parameter `fetch` of
  DemoService.AnalyzeUrl.
- DemoService.GetDownloadOptions: the three random sizes are parameters, so its ensures
  states the option kinds only. The fixed fields are stated by DemoService.OptionTablesAgree.
- Scraper.GetDownloadUrl: getVideoDownloadUrl tests `$media['type'] === 'reels'` for its file
  name. Media items are only ever 'photo' or 'video', so that branch cannot be taken, and the
  model always names the file `instagram_video_`.
- Request parameters present with a null value are not modelled. Laravel's `input(key,
  default)` gives null for such a key, and the `nullable` validation rules accept it; an empty
  string also arrives as null. The model's `None` means "absent", so the default applies. The
  members affected follow.
- ApiController.GetDownloadUrl: a present null `quality` is returned as null in the source; the
  model returns "hd". A present null `media_index` names a photo `instagram_photo_<code>_.jpg`
  in the source; the model writes index 0.
- ApiController.GetCarouselDownloads: a present null `format` gives photo entries with format
  null and a file name ending in `.` in the source; the model uses "jpg".
- DownloadProxy.DirectDownload: the same null `quality` and `media_index` cases as the API.
- DownloadProxy.Download: a present null or empty `format` reaches getContentType, whose
  parameter is a non-nullable `string`. The TypeError it raises escapes `catch (Exception $e)`,
  so the source answers with a server error after logging the download; the model uses "mp4".
  A present null `quality` is logged as null in the source; the model logs "hd".
- ApiController.GetDownloadUrl: `media_index` is an integer in the model. The source keeps the
  request's string, and Laravel's `integer` rule also accepts texts such as `+3` or `-0`,
  which PHP does not turn into integer array keys. For those the source falls back to item 0
  and names a photo `..._+3.jpg`; the model picks item 3 and writes `_3`.
- DownloadProxy.DirectDownload: the same `+3` or `-0` `media_index` case as the API.
- DownloadProxy.BulkDownload: the same null `format` case as the carousel list.
- Scraper.GetDownloadUrl: the PHP defaults `quality = 'hd'` and `format = 'mp4'` of its
  signature are not modelled; both are always passed.
- The page script apart from detectContentType and isValidInstagramUrl, all Blade markup,
  DownloaderController, the routes and the partials are presentation and routing only.
