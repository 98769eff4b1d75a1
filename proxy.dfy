/**
 * The download proxy controller: the type it logs and the Content-Type it streams with, and
 * the selection part of directDownload and bulkDownload. As in the API controller, the analyzed
 * record is an argument.
 */
module DownloadProxy {
  import opened Wrappers
  import opened Text
  import opened Content
  import opened Renditions
  import opened Parsers
  import opened Selection
  import ApiController

  /** The content type download logs for a requested `type`: images are photos, audio belongs to
      a video, and anything else is logged as it came. */
  function LoggedContentType(t: string): (logged: string)
    ensures t == "image" ==> logged == "photo"
    ensures t == "audio" ==> logged == "video"
    ensures t != "image" && t != "audio" ==> logged == t
  {
    if t == "image" then "photo" else if t == "audio" then "video" else t
  }

  /** getContentType: video and audio by the type alone, anything else by the lower-cased format. */
  function GetContentType(t: string, format: string): (ct: string)
    ensures t == "video" ==> ct == "video/mp4"
    ensures t == "audio" ==> ct == "audio/mpeg"
    ensures t != "video" && t != "audio" ==>
              && (ct == "image/png" <==> Lower(format) == "png")
              && (ct == "image/webp" <==> Lower(format) == "webp")
              && (ct == "image/gif" <==> Lower(format) == "gif")
              && (ct == "video/mp4" <==> Lower(format) == "mp4")
              && (ct == "audio/mpeg" <==> Lower(format) == "mp3")
              && (ct == "image/jpeg" <==> Lower(format) !in {"png", "webp", "gif", "mp4", "mp3"})
  {
    if t == "video" then "video/mp4"
    else if t == "audio" then "audio/mpeg"
    else
      match Lower(format)
      case "png" => "image/png"
      case "webp" => "image/webp"
      case "gif" => "image/gif"
      case "mp4" => "video/mp4"
      case "mp3" => "audio/mpeg"
      case _ => "image/jpeg"
  }

  /** For an image, the proxy's Content-Type is the scraper's image MIME type unless the format
      names mp4 or mp3, which the proxy maps to video and audio types. */
  lemma ContentTypeMatchesImageMime(t: string, format: string)
    requires t != "video" && t != "audio"
    ensures Lower(format) != "mp4" && Lower(format) != "mp3" <==> GetContentType(t, format) == GetImageMimeType(format)
  {
  }

  /** What download logs and streams with: `format` and `quality` are None when the request
      leaves them out, and default to 'mp4' and 'hd'. */
  datatype ProxyHeaders = ProxyHeaders(loggedType: string, quality: string, format: string, contentType: string)

  function Download(t: string, format: Option<string>, quality: Option<string>): (h: ProxyHeaders)
    ensures h.format == format.GetOr("mp4") && h.quality == quality.GetOr("hd")
    ensures h.loggedType == LoggedContentType(t)
    ensures h.contentType == GetContentType(t, h.format)
  {
    ProxyHeaders(LoggedContentType(t), quality.GetOr("hd"), format.GetOr("mp4"), GetContentType(t, format.GetOr("mp4")))
  }

  /** The `data` of directDownload's answer; `streamType` is the Content-Type used when the
      request asks to stream, and None otherwise. */
  datatype DirectLink = DirectLink(url: string, filename: string, ftype: FileType, format: string, quality: string,
                                   streamType: Option<string>)

  /** directDownload: the same selection as the API's getDownloadUrl, with 404 answers for the
      two failures. */
  method DirectDownload(data: Content, quality: Option<string>, format: Option<string>, mediaIndex: Option<int>,
                        stream: bool)
    returns (r: Result<DirectLink, string>)
    ensures var sel := SelectDownload(data, quality.GetOr("hd"), format, mediaIndex.GetOr(0));
            && (r.Failure? <==> sel.Failure?)
            && (r.Failure? ==> r.error == sel.error)
            && (r.Success? ==>
                  && r.value.url == sel.value.url && r.value.filename == sel.value.filename
                  && r.value.ftype == sel.value.ftype && r.value.format == sel.value.ext
                  && r.value.quality == quality.GetOr("hd")
                  && r.value.streamType == if stream then Some(GetContentType(sel.value.ftype.Name(), sel.value.ext)) else None)
  {
    var q := quality.GetOr("hd");
    var index := mediaIndex.GetOr(0);
    if |data.media| == 0 {
      return Failure(NoMediaMessage);
    }
    var media := PickMedia(data.media, index);
    var downloadUrl: Option<string>;
    var ext: string;
    var filename: string;
    var ftype: FileType;
    if media.kind == VideoMedia {
      downloadUrl := media.videoUrl;
      assert downloadUrl == ItemUrl(media);
      ext := if format == Some("mp3") || q == "audio" then "mp3" else "mp4";
      filename := "instagram_" + data.ctype.Name() + "_" + data.shortcode + "." + ext;
      ftype := if format == Some("mp3") || q == "audio" then AudioFile else VideoFile;
    } else {
      downloadUrl := PhotoSource(media);
      ext := if Filled(format) then format.value else "jpg";
      filename := "instagram_photo_" + data.shortcode + "_" + IntToString(index) + "." + ext;
      ftype := ImageFile;
    }
    if !Filled(downloadUrl) {
      assert SelectDownload(data, q, format, index) == Failure(NoUrlMessage);
      return Failure(NoUrlMessage);
    }
    assert SelectDownload(data, q, format, index) == Success(Pick(media, downloadUrl.value, filename, ftype, ext));
    var streamType := if stream then Some(GetContentType(ftype.Name(), ext)) else None;
    return Success(DirectLink(downloadUrl.value, filename, ftype, ext, q, streamType));
  }

  /** The MIME type the API reports for a selection and the Content-Type the proxy streams it
      with agree, except for an image requested as mp4 or mp3. */
  lemma StreamTypeMatchesApiMime(p: Pick)
    ensures (p.ftype == ImageFile && Lower(p.ext) in {"mp4", "mp3"})
            <==> GetContentType(p.ftype.Name(), p.ext) != ApiController.MimeFor(p.ftype, p.ext)
  {
    if p.ftype == ImageFile {
      ContentTypeMatchesImageMime(p.ftype.Name(), p.ext);
    }
  }

  /** The `data` of bulkDownload's answer. */
  datatype BulkList = BulkList(total: nat, downloads: seq<BundleEntry>)

  /** bulkDownload: one entry per media item that has a url, numbered from 0 in the file names;
      its entries carry no resolution. */
  method BulkDownload(data: Content, format: Option<string>) returns (r: Result<BulkList, string>)
    ensures |data.media| == 0 <==> r.Failure?
    ensures r.Failure? ==> r.error == NoMediaMessage
    ensures r.Success? ==> && r.value.downloads == Bundle(data, format.GetOr("jpg"), 0, false)
                           && r.value.total == |r.value.downloads|
  {
    var fmt := format.GetOr("jpg");
    if |data.media| == 0 {
      return Failure(NoMediaMessage);
    }
    var downloads: seq<BundleEntry> := [];
    for index := 0 to |data.media|
      invariant downloads == BundleUpTo(data, index, fmt, 0, false)
    {
      var media := data.media[index];
      var downloadUrl: Option<string>;
      var filename: string;
      var ftype: FileType;
      var ext: string;
      if media.kind == VideoMedia {
        downloadUrl := media.videoUrl;
        filename := "instagram_video_" + data.shortcode + "_" + IntToString(index) + ".mp4";
        ftype := VideoFile;
        ext := "mp4";
      } else {
        downloadUrl := PhotoSource(media);
        filename := "instagram_photo_" + data.shortcode + "_" + IntToString(index) + "." + fmt;
        ftype := ImageFile;
        ext := fmt;
      }
      BundleStep(data, index, fmt, 0, false);
      if Filled(downloadUrl) {
        assert BundleEntry(index, ftype, downloadUrl.value, filename, ext, None) == EntryFor(data, index, fmt, 0, false);
        downloads := downloads + [BundleEntry(index, ftype, downloadUrl.value, filename, ext, None)];
      }
    }
    return Success(BulkList(|downloads|, downloads));
  }
}
