/**
 * The thumbnail upload handler (handler_upload_thumbnail.go): the media
 * type allow-list, the random base64url name, and the handler body as a
 * sequence of steps whose outcomes are inputs.
 */
module UploadThumbnail {
  import opened Wrappers
  import Encoding
  import FilePath
  import opened Database
  import opened Assets
  import opened Trace

  /** The 32 random bytes `rand.Read` fills. */
  type ThumbnailKeyBytes = b: seq<Encoding.Byte> | |b| == 32 witness seq(32, _ => 0)

  const JpegMediaType := "image/jpeg"
  const PngMediaType := "image/png"

  /** Only JPEG and PNG images are accepted as thumbnails. */
  predicate IsThumbnailMediaType(mediaType: string)
  {
    mediaType == JpegMediaType || mediaType == PngMediaType
  }

  /**
   * The random file name: the 32 bytes in unpadded base64url (section 5 of
   * RFC 4648), 43 characters of the URL-safe alphabet, which holds no '='
   * and no path separator, and which decode back to the bytes.
   */
  function ThumbnailName(key: ThumbnailKeyBytes): (name: string)
    ensures |name| == 43
    ensures Encoding.AllBase64UrlChars(name) && '=' !in name && '/' !in name
    ensures Encoding.Base64UrlDecode(name) == Some(key)
  {
    Encoding.Base64UrlRoundTrip(key);
    var name := Encoding.Base64UrlEncode(key);
    assert '=' !in name && '/' !in name by {
      forall i | 0 <= i < |name|
        ensures name[i] != '=' && name[i] != '/'
      {
        assert Encoding.IsBase64UrlChar(name[i]);
      }
    }
    name
  }

  /**
   * The outcome of every external call the handler makes, in the order it
   * makes them. A `None` or `false` is a call that returned an error. The
   * error of `rand.Read` is ignored by the handler, so only the bytes are
   * an input.
   */
  datatype ThumbnailSteps = ThumbnailSteps(
    videoID: Option<Id>,             // uuid.Parse of the path value
    tokenFound: bool,                // auth.GetBearerToken
    jwtUser: Id,                     // the user ID auth.ValidateJWT returns,
    jwtValid: bool,                  //   and whether it returned no error
    dbVideo: Option<Video>,          // cfg.db.GetVideo
    multipartOk: bool,               // r.ParseMultipartForm
    formFileOk: bool,                // r.FormFile("thumbnail")
    mediaType: Option<string>,       // mime.ParseMediaType of the part's Content-Type
    randomBytes: ThumbnailKeyBytes,  // the key buffer rand.Read fills
    uploadSeekOk: bool,              // Seek of the uploaded part
    createOk: bool,                  // os.Create of the asset file
    copyOk: bool,                    // io.Copy into it
    updateOk: bool                   // cfg.db.UpdateVideo
  )

  /** The values the handler computes with pure helpers, lines 86-116. */
  datatype ThumbnailDerived = ThumbnailDerived(
    assetPath: Returned<string, AssetError>,  // getAssetPath, line 86
    diskPath: string,                         // getAssetDiskPath, line 100
    url: string,                              // getAssetURL, line 114
    stored: Video                             // the record with the thumbnail URL, line 116
  )

  function Derive(cfg: ApiConfig, mediaTypes: string -> ExtensionLookup, s: ThumbnailSteps): ThumbnailDerived
  {
    var mediaType := if s.mediaType.Some? then s.mediaType.value else "";
    var asset := GetAssetPath(ThumbnailName(s.randomBytes), mediaType, mediaTypes);
    var url := GetAssetURL(cfg, asset.value);
    var video := if s.dbVideo.Some? then s.dbVideo.value else ZeroVideo;
    ThumbnailDerived(asset, GetAssetDiskPath(cfg, asset.value), url, video.(thumbnailURL := Some(url)))
  }

  /** The request passed every check of lines 20-80 and is an accepted image. */
  predicate ReachesStore(s: ThumbnailSteps)
  {
    && s.videoID.Some? && s.tokenFound && s.jwtValid && s.dbVideo.Some? && s.dbVideo.value.userID == s.jwtUser
    && s.multipartOk && s.formFileOk && s.mediaType.Some? && IsThumbnailMediaType(s.mediaType.value)
  }

  /** The asset file is created. */
  predicate ReachesCreate(s: ThumbnailSteps, d: ThumbnailDerived)
  {
    ReachesStore(s) && d.assetPath.err.None? && s.uploadSeekOk && s.createOk
  }

  /** The asset file is written and the record is updated with its URL. */
  predicate Completes(s: ThumbnailSteps, d: ThumbnailDerived)
  {
    ReachesCreate(s, d) && s.copyOk && s.updateOk
  }

  /** The status written: that of the first check that fails, in the handler's order, or 200. */
  function ThumbnailStatus(s: ThumbnailSteps, d: ThumbnailDerived): int
  {
    if s.videoID.None? then StatusBadRequest
    else if !s.tokenFound || !s.jwtValid then StatusUnauthorized
    else if s.dbVideo.None? then StatusInternalServerError
    else if s.dbVideo.value.userID != s.jwtUser then StatusUnauthorized
    else if !s.multipartOk || !s.formFileOk || s.mediaType.None? || !IsThumbnailMediaType(s.mediaType.value) then StatusBadRequest
    else if !Completes(s, d) then StatusInternalServerError
    else StatusOK
  }



  /** Lines 20-80 when a request check stops the handler; the upload's `defer` runs once the part is open. */
  function RequestRun(s: ThumbnailSteps): Run
    requires !ReachesStore(s)
  {
    if s.videoID.None? then Run(Fail([], StatusBadRequest, InvalidId), ZeroVideo)
    else if !s.tokenFound then Run(Fail([], StatusUnauthorized, JwtMissing), ZeroVideo)
    else if !s.jwtValid then Run(Fail([], StatusUnauthorized, JwtInvalid), ZeroVideo)
    else if s.dbVideo.None? then Run(Fail([], StatusInternalServerError, MetadataLookupFailed), ZeroVideo)
    else
      var video := s.dbVideo.value;
      if video.userID != s.jwtUser then Run(Fail([], StatusUnauthorized, IllegalAccess), video)
      else if !s.multipartOk then Run(Fail([], StatusBadRequest, InvalidMultipartForm), video)
      else if !s.formFileOk then Run(Fail([], StatusBadRequest, ThumbnailFileMissing), video)
      else if s.mediaType.None? then Run(Fail([], StatusBadRequest, InvalidContentType) + [CloseUpload], video)
      else Run(Fail([], StatusBadRequest, InvalidFileType) + [CloseUpload], video)
  }

  /**
   * Lines 82-125 for an accepted image: the asset path, the file and the
   * record. Once the file exists its `defer` closes it before the upload's.
   */
  function StoreRun(s: ThumbnailSteps, d: ThumbnailDerived): Run
    requires ReachesStore(s)
  {
    var video := s.dbVideo.value;
    if d.assetPath.err.Some? then Run(Fail([], StatusInternalServerError, UnsupportedFileType) + [CloseUpload], video)
    else if !s.uploadSeekOk then Run(Fail([], StatusInternalServerError, UploadSeekFailed) + [CloseUpload], video)
    else if !s.createOk then Run(Fail([], StatusInternalServerError, FileCreateFailed) + [CloseUpload], video)
    else
      var written := [CreateFile(d.diskPath), WriteFile(d.diskPath)];
      var deferred := [CloseFile(d.diskPath), CloseUpload];
      if !s.copyOk then Run(Fail(written, StatusInternalServerError, CopyFailed) + deferred, video)
      else
        var updated := written + [UpdateVideo(d.stored)];
        if !s.updateOk then Run(Fail(updated, StatusInternalServerError, UpdateFailed) + deferred, d.stored)
        else Run(updated + [Respond(StatusOK, VideoBody(d.stored))] + deferred, d.stored)
  }

  /** The handler's whole run. */
  function ThumbnailRun(s: ThumbnailSteps, d: ThumbnailDerived): Run
  {
    if ReachesStore(s) then StoreRun(s, d) else RequestRun(s)
  }

  /**
   * `handlerUploadThumbnail`: runs the handler and reads back the status it
   * writes, that of the first failing check in the table.
   */
  method HandleUploadThumbnail(cfg: ApiConfig, mediaTypes: string -> ExtensionLookup, s: ThumbnailSteps)
    returns (status: int, trace: seq<Effect>, video: Video)
    ensures Run(trace, video) == ThumbnailRun(s, Derive(cfg, mediaTypes, s))
    ensures status == FirstStatus(trace) && status == ThumbnailStatus(s, Derive(cfg, mediaTypes, s))
  {
    var proceed;
    trace, video, proceed := CheckThumbnailRequest(s);
    if proceed {
      trace, video := StoreThumbnail(cfg, mediaTypes, s, Derive(cfg, mediaTypes, s));
    }
    status := FirstStatus(trace);
    ThumbnailStatusIsFirstFailure(s, Derive(cfg, mediaTypes, s));
  }

  /** Lines 20-80: the request checks, ending with the allow-list of image types. */
  method CheckThumbnailRequest(s: ThumbnailSteps) returns (trace: seq<Effect>, video: Video, proceed: bool)
    ensures proceed == ReachesStore(s)
    ensures proceed ==> trace == [] && video == s.dbVideo.value
    ensures !proceed ==> Run(trace, video) == RequestRun(s)
  {
    trace, video, proceed := [], ZeroVideo, false;
    if s.videoID.None? {
      trace := Fail(trace, StatusBadRequest, InvalidId);
      return;
    }
    if !s.tokenFound {
      trace := Fail(trace, StatusUnauthorized, JwtMissing);
      return;
    }
    if !s.jwtValid {
      trace := Fail(trace, StatusUnauthorized, JwtInvalid);
      return;
    }
    if s.dbVideo.None? {
      trace := Fail(trace, StatusInternalServerError, MetadataLookupFailed);
      return;
    }
    video := s.dbVideo.value;
    if video.userID != s.jwtUser {
      trace := Fail(trace, StatusUnauthorized, IllegalAccess);
      return;
    }
    if !s.multipartOk {
      trace := Fail(trace, StatusBadRequest, InvalidMultipartForm);
      return;
    }
    if !s.formFileOk {
      trace := Fail(trace, StatusBadRequest, ThumbnailFileMissing);
      return;
    }
    // from here on the upload's deferred close follows every return
    if s.mediaType.None? {
      trace := Fail(trace, StatusBadRequest, InvalidContentType) + [CloseUpload];
      return;
    }
    var mediaType := s.mediaType.value;
    if mediaType != JpegMediaType && mediaType != PngMediaType {
      trace := Fail(trace, StatusBadRequest, InvalidFileType) + [CloseUpload];
      return;
    }
    proceed := true;
  }

  /** Lines 82-96: the random name, the asset path and the rewind of the upload. */
  method StoreThumbnail(cfg: ApiConfig, mediaTypes: string -> ExtensionLookup, s: ThumbnailSteps, ghost d: ThumbnailDerived)
    returns (trace: seq<Effect>, video: Video)
    requires ReachesStore(s) && d == Derive(cfg, mediaTypes, s)
    ensures Run(trace, video) == StoreRun(s, d)
  {
    trace, video := [], s.dbVideo.value;
    // the error of rand.Read is ignored: the bytes are used as they are
    var randString := ThumbnailName(s.randomBytes);
    var asset := GetAssetPath(randString, s.mediaType.value, mediaTypes);
    if asset.err.Some? {
      trace := Fail(trace, StatusInternalServerError, UnsupportedFileType) + [CloseUpload];
      return;
    }
    if !s.uploadSeekOk {
      trace := Fail(trace, StatusInternalServerError, UploadSeekFailed) + [CloseUpload];
      return;
    }
    trace, video := WriteThumbnail(cfg, s, d, asset.value);
  }

  /** Lines 98-125: the asset file, its URL on the record and the response. */
  method WriteThumbnail(cfg: ApiConfig, s: ThumbnailSteps, ghost d: ThumbnailDerived, assetPath: string)
    returns (trace: seq<Effect>, video: Video)
    requires ReachesStore(s) && s.uploadSeekOk && d.assetPath == Returned(assetPath, None)
    requires d.diskPath == GetAssetDiskPath(cfg, assetPath) && d.url == GetAssetURL(cfg, assetPath)
    requires d.stored == s.dbVideo.value.(thumbnailURL := Some(d.url))
    ensures Run(trace, video) == StoreRun(s, d)
  {
    trace, video := [], s.dbVideo.value;
    var filePath := GetAssetDiskPath(cfg, assetPath);
    if !s.createOk {
      trace := Fail(trace, StatusInternalServerError, FileCreateFailed) + [CloseUpload];
      return;
    }
    trace := trace + [CreateFile(filePath), WriteFile(filePath)];
    var deferred := [CloseFile(filePath), CloseUpload];
    if !s.copyOk {
      trace := Fail(trace, StatusInternalServerError, CopyFailed) + deferred;
      return;
    }
    var publicURL := GetAssetURL(cfg, assetPath);
    video := video.(thumbnailURL := Some(publicURL));
    trace := trace + [UpdateVideo(video)];
    if !s.updateOk {
      trace := Fail(trace, StatusInternalServerError, UpdateFailed) + deferred;
      return;
    }
    trace := trace + [Respond(StatusOK, VideoBody(video))] + deferred;
  }

  /** The status written is that of the first failing check in the table. */
  lemma ThumbnailStatusIsFirstFailure(s: ThumbnailSteps, d: ThumbnailDerived)
    ensures FirstStatus(ThumbnailRun(s, d).trace) == ThumbnailStatus(s, d)
  {
    var t := ThumbnailRun(s, d).trace;
    if ReachesCreate(s, d) && !s.copyOk {
      assert t[2].Respond? && NoResponse(t[..2]);
    } else if ReachesCreate(s, d) {
      assert t[3].Respond? && NoResponse(t[..3]);
    } else {
      assert t[0].Respond? && NoResponse(t[..0]);
    }
  }

  /**
   * A request stopped before the image is accepted, an owner mismatch or a
   * type other than JPEG and PNG among them, touches nothing: no file, no
   * record, only the response and the close of an upload it opened.
   */
  lemma RejectedRequestWritesNothing(s: ThumbnailSteps, d: ThumbnailDerived)
    requires !ReachesStore(s)
    ensures forall e | e in ThumbnailRun(s, d).trace :: e.Respond? || e == CloseUpload
  {
  }

  /** Someone else's video: 401 and no effect at all, before the form is even parsed. */
  lemma OwnerMismatchIsRejected(s: ThumbnailSteps, d: ThumbnailDerived)
    requires s.videoID.Some? && s.tokenFound && s.jwtValid && s.dbVideo.Some? && s.dbVideo.value.userID != s.jwtUser
    ensures NoEffects(ThumbnailRun(s, d).trace) && FirstStatus(ThumbnailRun(s, d).trace) == StatusUnauthorized
  {
    var t := ThumbnailRun(s, d).trace;
    assert t == Fail([], StatusUnauthorized, IllegalAccess);
    assert t[0].Respond? && NoResponse(t[..0]);
  }

  /** Any parsed media type other than JPEG and PNG is answered 400 with nothing written or stored. */
  lemma DisallowedTypeRejected(s: ThumbnailSteps, d: ThumbnailDerived)
    requires s.videoID.Some? && s.tokenFound && s.jwtValid && s.dbVideo.Some? && s.dbVideo.value.userID == s.jwtUser
    requires s.multipartOk && s.formFileOk && s.mediaType.Some? && !IsThumbnailMediaType(s.mediaType.value)
    ensures var t := ThumbnailRun(s, d).trace;
            FirstStatus(t) == StatusBadRequest && (forall e | e in t :: e.Respond? || e == CloseUpload)
  {
    ThumbnailStatusIsFirstFailure(s, d);
    RejectedRequestWritesNothing(s, d);
  }

  /**
   * The record is updated only once the asset file was created and fully
   * copied, and then with the URL of that very file; nothing else is
   * stored, and the file is closed exactly when it was created.
   */
  lemma UpdateOnlyAfterWrite(s: ThumbnailSteps, d: ThumbnailDerived)
    ensures var t := ThumbnailRun(s, d).trace;
            && (forall e | e in t && e.UpdateVideo? :: e == UpdateVideo(d.stored))
            && (UpdateVideo(d.stored) in t <==> ReachesCreate(s, d) && s.copyOk)
            && (UpdateVideo(d.stored) in t ==> t[..3] == [CreateFile(d.diskPath), WriteFile(d.diskPath), UpdateVideo(d.stored)])
            && (CloseFile(d.diskPath) in t <==> CreateFile(d.diskPath) in t)
            && (CreateFile(d.diskPath) in t <==> ReachesCreate(s, d))
  {
    if !ReachesStore(s) {
      RejectedRequestWritesNothing(s, d);
    } else {
      StoreWritesBeforeUpdate(s, d);
    }
  }

  /** UpdateOnlyAfterWrite for an accepted image, on the steps from line 82 on. */
  lemma StoreWritesBeforeUpdate(s: ThumbnailSteps, d: ThumbnailDerived)
    requires ReachesStore(s)
    ensures var t := StoreRun(s, d).trace;
            && (forall e | e in t && e.UpdateVideo? :: e == UpdateVideo(d.stored))
            && (UpdateVideo(d.stored) in t <==> ReachesCreate(s, d) && s.copyOk)
            && (UpdateVideo(d.stored) in t ==> t[..3] == [CreateFile(d.diskPath), WriteFile(d.diskPath), UpdateVideo(d.stored)])
            && (CloseFile(d.diskPath) in t <==> CreateFile(d.diskPath) in t)
            && (CreateFile(d.diskPath) in t <==> ReachesCreate(s, d))
  {
    var t := StoreRun(s, d).trace;
    if ReachesCreate(s, d) {
      assert t[0] == CreateFile(d.diskPath) && t[|t| - 2] == CloseFile(d.diskPath);
      if s.copyOk {
        assert t[2] == UpdateVideo(d.stored);
      }
    }
  }

  /**
   * The 200 is written exactly when every step succeeds, and it carries the
   * record as stored: the thumbnail URL set, the video reference left as
   * the database holds it, not signed.
   */
  lemma StoredRecordAnswered(s: ThumbnailSteps, d: ThumbnailDerived)
    ensures var r := ThumbnailRun(s, d);
            && (forall e | e in r.trace && e.Respond? && e.status == StatusOK :: Completes(s, d) && e.body == VideoBody(d.stored))
            && (Completes(s, d) ==> Respond(StatusOK, VideoBody(d.stored)) in r.trace && r.video == d.stored)
  {
    if !ReachesStore(s) {
      RejectedRequestWritesNothing(s, d);
    }
  }

  /** Once the uploaded part is open its close is the last effect, whatever happens after. */
  lemma UploadClosedLast(s: ThumbnailSteps, d: ThumbnailDerived)
    ensures var t := ThumbnailRun(s, d).trace;
            && (CloseUpload in t <==> ReachesStore(s) || (s.videoID.Some? && s.tokenFound && s.jwtValid && s.dbVideo.Some?
                                                          && s.dbVideo.value.userID == s.jwtUser && s.multipartOk && s.formFileOk))
            && (CloseUpload in t ==> t[|t| - 1] == CloseUpload)
  {
  }

  /**
   * The file written and the URL stored name the same asset: the record's
   * new thumbnail URL is the served URL of the asset path whose disk path
   * is the file created, and only the thumbnail URL of the record changes.
   */
  lemma FileAndUrlShareAssetPath(cfg: ApiConfig, mediaTypes: string -> ExtensionLookup, s: ThumbnailSteps)
    requires s.dbVideo.Some?
    ensures var d := Derive(cfg, mediaTypes, s); var a := d.assetPath.value;
            && d.diskPath == GetAssetDiskPath(cfg, a)
            && d.stored.thumbnailURL == Some(AssetURLPrefix + cfg.port + AssetURLPath + a)
            && d.stored == s.dbVideo.value.(thumbnailURL := d.stored.thumbnailURL)
  {
  }

  /**
   * With a clean assets directory and an extension free of separators, the
   * file is the asset path directly inside that directory, and the URL
   * ends in the same asset path: the random name followed by the extension.
   */
  lemma ThumbnailFileServedAtUrl(cfg: ApiConfig, mediaTypes: string -> ExtensionLookup, s: ThumbnailSteps)
    requires s.mediaType.Some? && Derive(cfg, mediaTypes, s).assetPath.err.None?
    requires cfg.assetsRoot != [] && cfg.assetsRoot != "." && cfg.assetsRoot != "/"
    requires FilePath.Clean(cfg.assetsRoot) == cfg.assetsRoot
    requires FilePath.Separator !in mediaTypes(s.mediaType.value).list[0]
    ensures var d := Derive(cfg, mediaTypes, s);
            var a := ThumbnailName(s.randomBytes) + mediaTypes(s.mediaType.value).list[0];
            d.diskPath == cfg.assetsRoot + "/" + a && d.url == AssetURLPrefix + cfg.port + AssetURLPath + a
  {
    var d := Derive(cfg, mediaTypes, s);
    var name := ThumbnailName(s.randomBytes);
    var a := d.assetPath.value;
    assert FilePath.Separator !in name;
    assert a == name + mediaTypes(s.mediaType.value).list[0];
    assert FilePath.IsPlainName(a) by {
      assert |a| >= 43;
      assert a != "." && a != "..";
    }
    AssetDiskPathInRoot(cfg, a);
  }
}
