/**
 * The selection part of the API controller's getDownloadUrl and getCarouselDownloads. The
 * analyzed record `data` is an argument: when analyzeUrl throws, the controller answers with
 * that exception's message, and these methods are not reached.
 */
module ApiController {
  import opened Wrappers
  import opened Text
  import opened Content
  import opened Renditions
  import opened Parsers
  import opened Selection

  /** The `data` of getDownloadUrl's answer (the proxy URL built from it is not represented). */
  datatype DownloadInfo = DownloadInfo(url: string, filename: string, ftype: FileType, format: string,
                                       quality: string, mimeType: string, resolution: Option<string>)

  /** The MIME type the API reports: by the type for audio and video, by the extension for images. */
  function MimeFor(t: FileType, ext: string): (m: string)
    ensures t == AudioFile ==> m == "audio/mpeg"
    ensures t == VideoFile ==> m == "video/mp4"
    ensures t == ImageFile ==> m == GetImageMimeType(ext)
  {
    match t
    case AudioFile => "audio/mpeg"
    case VideoFile => "video/mp4"
    case ImageFile => GetImageMimeType(ext)
  }

  /** getDownloadUrl. `quality` and `mediaIndex` are None when the request leaves them out. */
  method GetDownloadUrl(data: Content, quality: Option<string>, format: Option<string>, mediaIndex: Option<int>)
    returns (r: Result<DownloadInfo, string>)
    ensures var sel := SelectDownload(data, quality.GetOr("hd"), format, mediaIndex.GetOr(0));
            && (r.Failure? <==> sel.Failure?)
            && (r.Failure? ==> r.error == sel.error)
            && (r.Success? ==>
                  && r.value.url == sel.value.url && r.value.filename == sel.value.filename
                  && r.value.ftype == sel.value.ftype && r.value.format == sel.value.ext
                  && r.value.quality == quality.GetOr("hd")
                  && r.value.mimeType == MimeFor(sel.value.ftype, sel.value.ext)
                  && r.value.resolution == sel.value.item.resolution)
  {
    var q := quality.GetOr("hd");
    var index := mediaIndex.GetOr(0);
    if |data.media| == 0 {
      return Failure(NoMediaMessage);
    }
    var media := PickMedia(data.media, index);
    var downloadUrl: Option<string>;
    var ext: string;
    var filename: string;
    var ftype: FileType;
    var mimeType: string;
    if media.kind == VideoMedia {
      downloadUrl := media.videoUrl;
      assert downloadUrl == ItemUrl(media);
      ext := if format == Some("mp3") || q == "audio" then "mp3" else "mp4";
      filename := "instagram_" + data.ctype.Name() + "_" + data.shortcode + "." + ext;
      ftype := if format == Some("mp3") || q == "audio" then AudioFile else VideoFile;
      mimeType := if ftype == AudioFile then "audio/mpeg" else "video/mp4";
    } else {
      downloadUrl := PhotoSource(media);
      ext := if Filled(format) then format.value else "jpg";
      filename := "instagram_photo_" + data.shortcode + "_" + IntToString(index) + "." + ext;
      ftype := ImageFile;
      mimeType := GetImageMimeType(ext);
    }
    if !Filled(downloadUrl) {
      assert SelectDownload(data, q, format, index) == Failure(NoUrlMessage);
      return Failure(NoUrlMessage);
    }
    assert SelectDownload(data, q, format, index) == Success(Pick(media, downloadUrl.value, filename, ftype, ext));
    return Success(DownloadInfo(downloadUrl.value, filename, ftype, ext, q, mimeType, media.resolution));
  }

  /** The `data` of getCarouselDownloads' answer. */
  datatype CarouselList = CarouselList(shortcode: string, total: nat, downloads: seq<BundleEntry>)

  /** getCarouselDownloads: one entry per media item that has a url, numbered from 1 in the file
      names; `format` is None when the request leaves it out. */
  method GetCarouselDownloads(data: Content, format: Option<string>) returns (r: Result<CarouselList, string>)
    ensures |data.media| == 0 <==> r.Failure?
    ensures r.Failure? ==> r.error == NoMediaMessage
    ensures r.Success? ==> && r.value.shortcode == data.shortcode
                           && r.value.downloads == Bundle(data, format.GetOr("jpg"), 1, true)
                           && r.value.total == |r.value.downloads|
  {
    var fmt := format.GetOr("jpg");
    if |data.media| == 0 {
      return Failure(NoMediaMessage);
    }
    var downloads: seq<BundleEntry> := [];
    for index := 0 to |data.media|
      invariant downloads == BundleUpTo(data, index, fmt, 1, true)
    {
      var media := data.media[index];
      var downloadUrl: Option<string>;
      var filename: string;
      var ftype: FileType;
      var ext: string;
      if media.kind == VideoMedia {
        downloadUrl := media.videoUrl;
        filename := "instagram_video_" + data.shortcode + "_" + IntToString(index + 1) + ".mp4";
        ftype := VideoFile;
        ext := "mp4";
      } else {
        downloadUrl := PhotoSource(media);
        filename := "instagram_photo_" + data.shortcode + "_" + IntToString(index + 1) + "." + fmt;
        ftype := ImageFile;
        ext := fmt;
      }
      BundleStep(data, index, fmt, 1, true);
      if Filled(downloadUrl) {
        assert BundleEntry(index, ftype, downloadUrl.value, filename, ext, media.resolution) == EntryFor(data, index, fmt, 1, true);
        downloads := downloads + [BundleEntry(index, ftype, downloadUrl.value, filename, ext, media.resolution)];
      }
    }
    return Success(CarouselList(data.shortcode, |downloads|, downloads));
  }
}
