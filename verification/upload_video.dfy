/**
 * The video upload handler (handler_upload_video.go): the random object
 * name, the aspect-ratio prefix, the S3 key and stored reference, and the
 * handler body as a sequence of steps whose outcomes are inputs.
 */
module UploadVideo {
  import opened Wrappers
  import Encoding
  import VideoAspectRatio
  import FastStart
  import opened Database
  import opened Assets
  import opened Trace

  /** The 16 random bytes `rand.Read` fills. */
  type VideoKeyBytes = b: seq<Encoding.Byte> | |b| == 16 witness seq(16, _ => 0)

  /** The random object name: the lowercase hexadecimal form of the 16 bytes. */
  function RandomVideoName(key: VideoKeyBytes): (name: string)
    ensures |name| == 32
    ensures forall i | 0 <= i < |name| :: Encoding.IsLowerHexDigit(name[i])
    ensures Encoding.HexDecode(name) == Some(key)
  {
    Encoding.HexRoundTrip(key);
    Encoding.HexEncode(key)
  }

  const LandscapePrefix := "landscape"
  const PortraitPrefix := "portrait"
  const OtherPrefix := "other"

  /** The key prefix chosen by the aspect ratio. */
  function VideoPrefix(aspect: string): (prefix: string)
    ensures prefix == LandscapePrefix <==> aspect == VideoAspectRatio.Landscape
    ensures prefix == PortraitPrefix <==> aspect == VideoAspectRatio.Portrait
    ensures prefix == OtherPrefix <==> aspect != VideoAspectRatio.Landscape && aspect != VideoAspectRatio.Portrait
  {
    match aspect
    case "16:9" => LandscapePrefix
    case "9:16" => PortraitPrefix
    case _ => OtherPrefix
  }

  /** The prefix follows the tolerance windows of the frame's dimensions. */
  lemma PrefixFollowsDimensions(w: int, h: int)
    ensures VideoPrefix(VideoAspectRatio.AspectRatio(w, h)) == LandscapePrefix
            <==> VideoAspectRatio.InLandscapeWindow(w, h)
    ensures VideoPrefix(VideoAspectRatio.AspectRatio(w, h)) == PortraitPrefix
            <==> !VideoAspectRatio.InLandscapeWindow(w, h) && VideoAspectRatio.InPortraitWindow(w, h)
  {
    VideoAspectRatio.LandscapeExactly(w, h);
    VideoAspectRatio.PortraitExactly(w, h);
  }

  /** The object key: the prefix, a slash, the asset path. */
  function S3Key(prefix: string, assetPath: string): (key: string)
    ensures |key| == |prefix| + 1 + |assetPath|
    ensures key[..|prefix|] == prefix && key[|prefix|] == '/' && key[|prefix| + 1..] == assetPath
  {
    prefix + "/" + assetPath
  }

  /**
   * The outcome of every external call the handler makes, in the order it
   * makes them. A `None` or `false` is a call that returned an error.
   */
  datatype VideoSteps = VideoSteps(
    videoID: Option<Id>,             // uuid.Parse of the path value
    tokenFound: bool,                // auth.GetBearerToken
    jwtUser: Id,                     // the user ID auth.ValidateJWT returns,
    jwtValid: bool,                  //   and whether it returned no error
    dbVideo: Option<Video>,          // cfg.db.GetVideo
    multipartOk: bool,               // r.ParseMultipartForm
    formFileOk: bool,                // r.FormFile("video")
    mediaType: Option<string>,       // mime.ParseMediaType of the part's Content-Type
    tempFile: Option<string>,        // os.CreateTemp: the name of the file made
    copyOk: bool,                    // io.Copy into the temporary file
    uploadSeekOk: bool,              // Seek of the uploaded part
    randomBytes: VideoKeyBytes,      // the key buffer rand.Read fills,
    randomOk: bool,                  //   and whether it returned no error
    tempSeekOk: bool,                // Seek of the temporary file
    probe: VideoAspectRatio.ProbeOutcome, // ffprobe on the temporary file
    ffmpegOk: bool,                  // the ffmpeg fast-start run
    openOk: bool,                    // os.Open of the processed file
    putOk: bool,                     // s3 PutObject
    updateOk: bool                   // cfg.db.UpdateVideo
  )

  /**
   * The values the handler computes with pure helpers along the way. They
   * matter only once the handler reaches the line that computes them.
   */
  datatype Derived = Derived(
    assetPath: Returned<string, AssetError>,               // getAssetPath, line 102
    aspect: Result<string, VideoAspectRatio.ProbeError>,   // getVideoAspectRatio, line 112
    processed: string,                                     // processVideoForFastStart's path, line 117
    key: string,                                           // s3Key, line 136
    stored: Video,                                         // the record with the stored reference, lines 152-153
    signed: Returned<Video, SignError>                     // dbVideoToSignedVideo, line 163
  )

  function Derive(cfg: ApiConfig, mediaTypes: string -> ExtensionLookup, s: VideoSteps): Derived
  {
    var mediaType := if s.mediaType.Some? then s.mediaType.value else "";
    var asset := GetAssetPath(RandomVideoName(s.randomBytes), mediaType, mediaTypes);
    var aspect := VideoAspectRatio.GetVideoAspectRatio(s.probe);
    var ratio := if aspect.Success? then aspect.value else "";
    var key := S3Key(VideoPrefix(ratio), asset.value);
    var video := if s.dbVideo.Some? then s.dbVideo.value else ZeroVideo;
    var stored := video.(videoURL := Some(StoredVideoReference(cfg.s3Bucket, key)));
    Derived(asset, aspect, if s.tempFile.Some? then FastStart.OutputPath(s.tempFile.value) else "",
            key, stored, DbVideoToSignedVideo(cfg, stored))
  }

  /** All checks up to the ownership test pass (a JWT error does not stop the handler). */
  predicate OwnsVideo(s: VideoSteps)
  {
    s.videoID.Some? && s.tokenFound && s.dbVideo.Some? && s.dbVideo.value.userID == s.jwtUser
  }

  predicate OwnerMismatch(s: VideoSteps)
  {
    s.videoID.Some? && s.tokenFound && s.dbVideo.Some? && s.dbVideo.value.userID != s.jwtUser
  }

  /** The upload was parsed and the handler goes on to create the temporary file. */
  predicate ReachesTempFile(s: VideoSteps)
  {
    OwnsVideo(s) && s.multipartOk && s.formFileOk && s.mediaType.Some?
  }

  /** The handler goes on to the S3 upload. */
  predicate ReachesUpload(s: VideoSteps, d: Derived)
  {
    ReachesTempFile(s) && s.tempFile.Some? && s.copyOk && s.uploadSeekOk && s.randomOk
    && s.tempSeekOk && d.aspect.Success? && s.ffmpegOk && s.openOk
  }

  /** Every step up to and including the presign succeeds (the JWT and asset-path results aside). */
  predicate Completes(s: VideoSteps, d: Derived)
  {
    ReachesUpload(s, d) && s.putOk && s.updateOk && d.signed.err.None?
  }

  /**
   * The status written: that of the first check that fails, in
   * the handler's order, or 200.
   */
  function VideoStatus(s: VideoSteps, d: Derived): int
  {
    if s.videoID.None? then StatusBadRequest
    else if !s.tokenFound then StatusUnauthorized
    else if !s.jwtValid then StatusUnauthorized
    else if s.dbVideo.None? then StatusInternalServerError
    else if s.dbVideo.value.userID != s.jwtUser then StatusUnauthorized
    else if !s.multipartOk || !s.formFileOk || s.mediaType.None? then StatusBadRequest
    else if s.tempFile.None? || !s.copyOk || !s.uploadSeekOk || !s.randomOk then StatusInternalServerError
    else if d.assetPath.err.Some? then StatusInternalServerError
    else if !Completes(s, d) then StatusInternalServerError
    else StatusOK
  }


  const JwtFailure := Respond(StatusUnauthorized, ErrorBody(JwtNotValidated))
  const AssetPathFailure := Respond(StatusInternalServerError, ErrorBody(AssetTypeFailed))


  /**
   * The calls deferred once the temporary file exists, run in reverse order
   * of their `defer`: newFile.Close, os.Remove of the temporary file, then
   * the upload's file.Close.
   */
  function TempCleanup(trace: seq<Effect>, tempPath: string): seq<Effect>
  {
    trace + [CloseFile(tempPath), RemoveFile(tempPath), CloseUpload]
  }

  /** The 401 a JWT error writes before the handler carries on with the user ID it got. */
  function JwtPrefix(s: VideoSteps): seq<Effect>
  {
    if s.jwtValid then [] else [JwtFailure]
  }

  /** Lines 19-73 when a request check stops the handler before the temporary file. */
  function RequestRun(s: VideoSteps): Run
    requires !ReachesTempFile(s)
  {
    var pre := JwtPrefix(s);
    if s.videoID.None? then Run(Fail([], StatusBadRequest, InvalidId), ZeroVideo)
    else if !s.tokenFound then Run(Fail([], StatusUnauthorized, JwtMissing), ZeroVideo)
    else if s.dbVideo.None? then Run(Fail(pre, StatusInternalServerError, MetadataLookupFailed), ZeroVideo)
    else
      var video := s.dbVideo.value;
      if video.userID != s.jwtUser then Run(Fail(pre, StatusUnauthorized, IllegalAccess), video)
      else if !s.multipartOk then Run(Fail(pre, StatusBadRequest, InvalidMultipartForm), video)
      else if !s.formFileOk then Run(Fail(pre, StatusBadRequest, VideoFileMissing), video)
      else Run(Fail(pre, StatusBadRequest, InvalidContentType) + [CloseUpload], video)
  }

  /** The handler's whole run: the request checks, then staging after the JWT's 401 if one was written. */
  function VideoRun(cfg: ApiConfig, s: VideoSteps, d: Derived): Run
  {
    if ReachesTempFile(s) then StageRun(cfg, s, d, JwtPrefix(s)) else RequestRun(s)
  }

  /**
   * Lines 74-82, after the effects `pre`: the temporary file and its
   * deferred cleanup. A failed `os.CreateTemp` writes 500 and does not
   * return; the next `defer` then takes the name of a nil file and panics,
   * which leaves only the upload's own `defer` to run. Otherwise the rest of
   * the handler runs and its deferred calls follow whatever it did.
   */
  function StageRun(cfg: ApiConfig, s: VideoSteps, d: Derived, pre: seq<Effect>): Run
    requires ReachesTempFile(s)
  {
    if s.tempFile.None? then
      Run(Fail(pre, StatusInternalServerError, TempFileCreateFailed) + [Panic, CloseUpload], s.dbVideo.value)
    else
      var t := s.tempFile.value;
      var r := ProcessRun(cfg, s, d, pre + [CreateTemp(t)]);
      Run(TempCleanup(r.trace, t), r.video)
  }

  /**
   * Lines 83-126, after the effects `pre`: the copy, the random name, the
   * probe and the fast-start rewrite. A failed `getAssetPath` writes 500 and
   * the handler carries on with the empty asset path.
   */
  function ProcessRun(cfg: ApiConfig, s: VideoSteps, d: Derived, pre: seq<Effect>): Run
    requires ReachesTempFile(s) && s.tempFile.Some?
  {
    var video := s.dbVideo.value;
    var t := s.tempFile.value;
    var copied := pre + [WriteFile(t)];
    if !s.copyOk then Run(Fail(copied, StatusInternalServerError, CopyFailed), video)
    else if !s.uploadSeekOk then Run(Fail(copied, StatusInternalServerError, UploadSeekFailed), video)
    else if !s.randomOk then Run(Fail(copied, StatusInternalServerError, RandomKeyFailed), video)
    else
      var named := if d.assetPath.err.Some? then copied + [AssetPathFailure] else copied;
      if !s.tempSeekOk then Run(Fail(named, StatusInternalServerError, TempSeekFailed), video)
      else
        var probed := named + [Probe(t)];
        if d.aspect.Failure? then Run(Fail(probed, StatusInternalServerError, AspectRatioFailed), video)
        else
          var rewritten := probed + [FastStart(t, d.processed)];
          if !s.ffmpegOk then Run(Fail(rewritten, StatusInternalServerError, ProcessingFailed), video)
          else
            var outputOpen := rewritten + [OpenFile(d.processed)];
            if !s.openOk then Run(Fail(outputOpen, StatusInternalServerError, ProcessedOpenFailed), video)
            else PublishRun(cfg, s, d, outputOpen)
  }

  /** Lines 127-169, after the effects `pre`: the upload, the stored reference and the signed response. */
  function PublishRun(cfg: ApiConfig, s: VideoSteps, d: Derived, pre: seq<Effect>): Run
    requires ReachesUpload(s, d)
  {
    var uploaded := pre + [PutObject(cfg.s3Bucket, d.key, d.processed, s.mediaType.value)];
    if !s.putOk then Run(Fail(uploaded, StatusInternalServerError, S3UploadFailed), s.dbVideo.value)
    else
      var updated := uploaded + [UpdateVideo(d.stored)];
      if !s.updateOk then Run(Fail(updated, StatusInternalServerError, UpdateFailed), d.stored)
      else if d.signed.err.Some? then Run(Fail(updated, StatusInternalServerError, PresignUrlFailed), d.signed.value)
      else Run(updated + [Respond(StatusOK, VideoBody(d.signed.value))], d.signed.value)
  }

  /**
   * `handlerUploadVideo`: runs the handler and reads back the status it
   * writes, that of the first failing check in the table.
   */
  method HandleUploadVideo(cfg: ApiConfig, mediaTypes: string -> ExtensionLookup, s: VideoSteps)
    returns (status: int, trace: seq<Effect>, video: Video)
    ensures Run(trace, video) == VideoRun(cfg, s, Derive(cfg, mediaTypes, s))
    ensures status == FirstStatus(trace) && status == VideoStatus(s, Derive(cfg, mediaTypes, s))
  {
    var proceed;
    trace, video, proceed := CheckVideoRequest(s);
    if proceed {
      trace, video := StageVideo(cfg, mediaTypes, s, Derive(cfg, mediaTypes, s), trace);
    }
    status := FirstStatus(trace);
    VideoStatusIsFirstFailure(cfg, s, Derive(cfg, mediaTypes, s));
  }

  /**
   * Lines 19-73: the request checks. The handler goes on exactly when they
   * leave it the video to stage, with at most the JWT's 401 written.
   */
  method CheckVideoRequest(s: VideoSteps) returns (trace: seq<Effect>, video: Video, proceed: bool)
    ensures proceed == ReachesTempFile(s)
    ensures proceed ==> trace == JwtPrefix(s) && video == s.dbVideo.value
    ensures !proceed ==> Run(trace, video) == RequestRun(s)
  {
    trace, video, proceed := [], ZeroVideo, false;
    if s.videoID.None? {
      trace := Fail(trace, StatusBadRequest, InvalidId);
      return;
    }
    if !s.tokenFound {
      trace := Fail(trace, StatusUnauthorized, JwtMissing);
      return;
    }
    if !s.jwtValid {
      // no return: the handler carries on with the user ID it got back
      trace := trace + [JwtFailure];
    }
    if s.dbVideo.None? {
      trace := Fail(trace, StatusInternalServerError, MetadataLookupFailed);
      return;
    }
    video := s.dbVideo.value;
    if video.userID != s.jwtUser {
      trace := Fail(trace, StatusUnauthorized, IllegalAccess);
      return;
    }
    if !s.multipartOk {
      trace := Fail(trace, StatusBadRequest, InvalidMultipartForm);
      return;
    }
    if !s.formFileOk {
      trace := Fail(trace, StatusBadRequest, VideoFileMissing);
      return;
    }
    if s.mediaType.None? {
      trace := Fail(trace, StatusBadRequest, InvalidContentType);
      trace := trace + [CloseUpload];
      return;
    }
    proceed := true;
  }

  /** Lines 74-82: the temporary file, then the rest of the handler, then the deferred calls. */
  method StageVideo(cfg: ApiConfig, mediaTypes: string -> ExtensionLookup, s: VideoSteps, ghost d: Derived,
                    pre: seq<Effect>)
    returns (trace: seq<Effect>, video: Video)
    requires ReachesTempFile(s) && d == Derive(cfg, mediaTypes, s)
    ensures Run(trace, video) == StageRun(cfg, s, d, pre)
  {
    if s.tempFile.None? {
      // no return after the error: `defer os.Remove(newFile.Name())` panics on the nil file
      trace, video := Fail(pre, StatusInternalServerError, TempFileCreateFailed) + [Panic, CloseUpload], s.dbVideo.value;
      return;
    }
    var tempPath := s.tempFile.value;
    trace, video := ProcessTempFile(cfg, mediaTypes, s, d, pre + [CreateTemp(tempPath)]);
    trace := TempCleanup(trace, tempPath);
  }

  /** Lines 83-126: the copy, the random name, the probe and the fast-start rewrite. */
  method ProcessTempFile(cfg: ApiConfig, mediaTypes: string -> ExtensionLookup, s: VideoSteps, ghost d: Derived,
                         pre: seq<Effect>)
    returns (trace: seq<Effect>, video: Video)
    requires ReachesTempFile(s) && s.tempFile.Some? && d == Derive(cfg, mediaTypes, s)
    ensures Run(trace, video) == ProcessRun(cfg, s, d, pre)
  {
    trace, video := pre, s.dbVideo.value;
    var mediaType := s.mediaType.value;
    var tempPath := s.tempFile.value;
    trace := trace + [WriteFile(tempPath)];
    if !s.copyOk {
      trace := Fail(trace, StatusInternalServerError, CopyFailed);
      return;
    }
    if !s.uploadSeekOk {
      trace := Fail(trace, StatusInternalServerError, UploadSeekFailed);
      return;
    }
    if !s.randomOk {
      trace := Fail(trace, StatusInternalServerError, RandomKeyFailed);
      return;
    }
    var randString := RandomVideoName(s.randomBytes);
    var asset := GetAssetPath(randString, mediaType, mediaTypes);
    if asset.err.Some? {
      // no return: the upload goes on with the empty asset path
      trace := trace + [AssetPathFailure];
    }
    var assetPath := asset.value;
    if !s.tempSeekOk {
      trace := Fail(trace, StatusInternalServerError, TempSeekFailed);
      return;
    }
    trace := trace + [Probe(tempPath)];
    var aspect := VideoAspectRatio.GetVideoAspectRatio(s.probe);
    if aspect.Failure? {
      trace := Fail(trace, StatusInternalServerError, AspectRatioFailed);
      return;
    }
    trace := trace + [FastStart(tempPath, FastStart.OutputPath(tempPath))];
    var processed := FastStart.ProcessVideoForFastStart(tempPath, (input: string, output: string) => s.ffmpegOk);
    if processed.Failure? {
      trace := Fail(trace, StatusInternalServerError, ProcessingFailed);
      return;
    }
    trace := trace + [OpenFile(processed.value)];
    if !s.openOk {
      trace := Fail(trace, StatusInternalServerError, ProcessedOpenFailed);
      return;
    }
    trace, video := PublishVideo(cfg, mediaTypes, s, d, trace, mediaType, assetPath, aspect.value, processed.value);
  }

  /** Lines 127-169: the upload to S3, the stored reference and the signed response. */
  method PublishVideo(cfg: ApiConfig, mediaTypes: string -> ExtensionLookup, s: VideoSteps, ghost d: Derived,
                      pre: seq<Effect>, mediaType: string, assetPath: string, aspect: string, body: string)
    returns (trace: seq<Effect>, video: Video)
    requires ReachesUpload(s, d) && d == Derive(cfg, mediaTypes, s)
    requires mediaType == s.mediaType.value && assetPath == d.assetPath.value && d.aspect == Success(aspect)
    requires body == d.processed
    ensures Run(trace, video) == PublishRun(cfg, s, d, pre)
  {
    trace, video := pre, s.dbVideo.value;
    var prefix := VideoPrefix(aspect);
    var s3Key := S3Key(prefix, assetPath);
    trace := trace + [PutObject(cfg.s3Bucket, s3Key, body, mediaType)];
    if !s.putOk {
      trace := Fail(trace, StatusInternalServerError, S3UploadFailed);
      return;
    }
    video := video.(videoURL := Some(StoredVideoReference(cfg.s3Bucket, s3Key)));
    trace := trace + [UpdateVideo(video)];
    if !s.updateOk {
      trace := Fail(trace, StatusInternalServerError, UpdateFailed);
      return;
    }
    var signed := DbVideoToSignedVideo(cfg, video);
    video := signed.value;
    if signed.err.Some? {
      trace := Fail(trace, StatusInternalServerError, PresignUrlFailed);
      return;
    }
    trace := trace + [Respond(StatusOK, VideoBody(video))];
  }

  /** Publishing only adds effects after `pre`. */
  lemma PublishExtends(cfg: ApiConfig, s: VideoSteps, d: Derived, pre: seq<Effect>)
    requires ReachesUpload(s, d)
    ensures var t := PublishRun(cfg, s, d, pre).trace; |t| > |pre| && t[..|pre|] == pre
  {
  }

  /** The effects of lines 84-126 when every step succeeds. */
  function Processed(s: VideoSteps, d: Derived, pre: seq<Effect>): seq<Effect>
    requires s.tempFile.Some?
  {
    var t := s.tempFile.value;
    var copied := pre + [WriteFile(t)];
    var named := if d.assetPath.err.Some? then copied + [AssetPathFailure] else copied;
    named + [Probe(t)] + [FastStart(t, d.processed)] + [OpenFile(d.processed)]
  }

  /** Processing only adds effects after `pre`. */
  lemma ProcessExtends(cfg: ApiConfig, s: VideoSteps, d: Derived, pre: seq<Effect>)
    requires ReachesTempFile(s) && s.tempFile.Some?
    ensures var t := ProcessRun(cfg, s, d, pre).trace; |t| > |pre| && t[..|pre|] == pre
  {
    if ReachesUpload(s, d) {
      PublishExtends(cfg, s, d, Processed(s, d, pre));
      assert Processed(s, d, pre)[..|pre|] == pre;
    }
  }

  /** Staging only adds effects after `pre`. */
  lemma StageExtends(cfg: ApiConfig, s: VideoSteps, d: Derived, pre: seq<Effect>)
    requires ReachesTempFile(s)
    ensures var t := StageRun(cfg, s, d, pre).trace; |t| > |pre| && t[..|pre|] == pre
  {
    if s.tempFile.Some? {
      var created := pre + [CreateTemp(s.tempFile.value)];
      ProcessExtends(cfg, s, d, created);
      assert created[..|pre|] == pre;
    }
  }

  /** With no response written before it, publishing answers 200 exactly when every step completes, and 500 otherwise. */
  lemma PublishStatus(cfg: ApiConfig, s: VideoSteps, d: Derived, pre: seq<Effect>)
    requires ReachesUpload(s, d) && NoResponse(pre)
    ensures var t := PublishRun(cfg, s, d, pre).trace;
            !NoResponse(t) && FirstStatus(t) == if Completes(s, d) then StatusOK else StatusInternalServerError
  {
    var t := PublishRun(cfg, s, d, pre).trace;
    var n := if s.putOk then |pre| + 2 else |pre| + 1;
    assert t[n].Respond? && NoResponse(t[..n]);
  }

  /** An error response answers that error's status when nothing was written before it. */
  lemma FailStatus(pre: seq<Effect>, code: int, m: Message)
    requires NoResponse(pre)
    ensures !NoResponse(Fail(pre, code, m)) && FirstStatus(Fail(pre, code, m)) == code
  {
    var t := Fail(pre, code, m);
    assert t[|pre|].Respond? && t[..|pre|] == pre;
  }

  /** Processing that stops at the copy, the seek of the upload or the random key answers 500. */
  lemma ProcessEarlyFailureStatus(cfg: ApiConfig, s: VideoSteps, d: Derived, pre: seq<Effect>)
    requires ReachesTempFile(s) && s.tempFile.Some? && NoResponse(pre)
    requires !s.copyOk || !s.uploadSeekOk || !s.randomOk
    ensures var t := ProcessRun(cfg, s, d, pre).trace; !NoResponse(t) && FirstStatus(t) == StatusInternalServerError
  {
    var copied := pre + [WriteFile(s.tempFile.value)];
    if !s.copyOk {
      FailStatus(copied, StatusInternalServerError, CopyFailed);
    } else if !s.uploadSeekOk {
      FailStatus(copied, StatusInternalServerError, UploadSeekFailed);
    } else {
      FailStatus(copied, StatusInternalServerError, RandomKeyFailed);
    }
  }

  /** Processing that stops after the random key but before the upload answers 500. */
  lemma ProcessLateFailureStatus(cfg: ApiConfig, s: VideoSteps, d: Derived, pre: seq<Effect>)
    requires ReachesTempFile(s) && s.tempFile.Some? && NoResponse(pre)
    requires s.copyOk && s.uploadSeekOk && s.randomOk && !ReachesUpload(s, d)
    ensures var t := ProcessRun(cfg, s, d, pre).trace; !NoResponse(t) && FirstStatus(t) == StatusInternalServerError
  {
    var tp := s.tempFile.value;
    var copied := pre + [WriteFile(tp)];
    if d.assetPath.err.Some? {
      var t := ProcessRun(cfg, s, d, pre).trace;
      assert t[|copied|].Respond? && t[..|copied|] == copied;
    } else if !s.tempSeekOk {
      FailStatus(copied, StatusInternalServerError, TempSeekFailed);
    } else if d.aspect.Failure? {
      FailStatus(copied + [Probe(tp)], StatusInternalServerError, AspectRatioFailed);
    } else if !s.ffmpegOk {
      FailStatus(copied + [Probe(tp)] + [FastStart(tp, d.processed)], StatusInternalServerError, ProcessingFailed);
    } else {
      FailStatus(copied + [Probe(tp)] + [FastStart(tp, d.processed)] + [OpenFile(d.processed)],
                 StatusInternalServerError, ProcessedOpenFailed);
    }
  }

  /** Processing that reaches the upload after a failed asset path answers the 500 written for it. */
  lemma ProcessAssetFailureStatus(cfg: ApiConfig, s: VideoSteps, d: Derived, pre: seq<Effect>)
    requires ReachesUpload(s, d) && d.assetPath.err.Some? && NoResponse(pre)
    ensures var t := ProcessRun(cfg, s, d, pre).trace; !NoResponse(t) && FirstStatus(t) == StatusInternalServerError
  {
    var t := ProcessRun(cfg, s, d, pre).trace;
    var processed := Processed(s, d, pre);
    PublishExtends(cfg, s, d, processed);
    var n := |pre| + 1;
    assert processed[n].Respond? && NoResponse(processed[..n]);
    assert t[..n + 1] == processed[..n + 1];
    assert t[n].Respond? && NoResponse(t[..n]);
  }

  /** With no response written before it, processing writes the status the table gives. */
  lemma ProcessStatus(cfg: ApiConfig, s: VideoSteps, d: Derived, pre: seq<Effect>)
    requires ReachesTempFile(s) && s.tempFile.Some? && s.jwtValid && NoResponse(pre)
    ensures var t := ProcessRun(cfg, s, d, pre).trace; !NoResponse(t) && FirstStatus(t) == VideoStatus(s, d)
  {
    if !s.copyOk || !s.uploadSeekOk || !s.randomOk {
      ProcessEarlyFailureStatus(cfg, s, d, pre);
    } else if !ReachesUpload(s, d) {
      ProcessLateFailureStatus(cfg, s, d, pre);
    } else if d.assetPath.err.Some? {
      ProcessAssetFailureStatus(cfg, s, d, pre);
    } else {
      PublishStatus(cfg, s, d, Processed(s, d, pre));
    }
  }

  /** With no response written before it, staging writes the status the table gives. */
  lemma StageStatus(cfg: ApiConfig, s: VideoSteps, d: Derived, pre: seq<Effect>)
    requires ReachesTempFile(s) && s.jwtValid && NoResponse(pre)
    ensures FirstStatus(StageRun(cfg, s, d, pre).trace) == VideoStatus(s, d)
  {
    if s.tempFile.None? {
      FailStatus(pre, StatusInternalServerError, TempFileCreateFailed);
      var failed := Fail(pre, StatusInternalServerError, TempFileCreateFailed);
      FirstStatusKept(failed, failed + [Panic, CloseUpload]);
    } else {
      var tp := s.tempFile.value;
      var created := pre + [CreateTemp(tp)];
      ProcessStatus(cfg, s, d, created);
      var r := ProcessRun(cfg, s, d, created).trace;
      FirstStatusKept(r, TempCleanup(r, tp));
    }
  }

  /** The status written is that of the first failing check in the table. */
  lemma VideoStatusIsFirstFailure(cfg: ApiConfig, s: VideoSteps, d: Derived)
    ensures FirstStatus(VideoRun(cfg, s, d).trace) == VideoStatus(s, d)
  {
    var t := VideoRun(cfg, s, d).trace;
    if s.jwtValid && ReachesTempFile(s) {
      StageStatus(cfg, s, d, []);
    } else {
      if ReachesTempFile(s) {
        StageExtends(cfg, s, d, [JwtFailure]);
      }
      assert t[0].Respond? && NoResponse(t[..0]);
    }
  }

  /** A request stopped by the checks of lines 19-73 touches nothing but the response, and the upload it opened. */
  lemma RejectedRequestWritesNothing(cfg: ApiConfig, s: VideoSteps, d: Derived)
    requires !ReachesTempFile(s)
    ensures var t := VideoRun(cfg, s, d).trace;
            && (!(OwnsVideo(s) && s.multipartOk && s.formFileOk) ==> NoEffects(t))
            && (OwnsVideo(s) && s.multipartOk && s.formFileOk ==> NoEffects(t[..|t| - 1]) && t[|t| - 1] == CloseUpload)
  {
    var t := VideoRun(cfg, s, d).trace;
    if OwnsVideo(s) && s.multipartOk && s.formFileOk {
      assert t[..|t| - 1] == Fail(JwtPrefix(s), StatusBadRequest, InvalidContentType);
    }
  }

  /** Someone else's video: 401, no effect at all, and the record is left as read. */
  lemma OwnerMismatchIsRejected(cfg: ApiConfig, s: VideoSteps, d: Derived)
    requires OwnerMismatch(s)
    ensures var r := VideoRun(cfg, s, d);
            NoEffects(r.trace) && FirstStatus(r.trace) == StatusUnauthorized && r.video == s.dbVideo.value
  {
    RejectedRequestWritesNothing(cfg, s, d);
    VideoStatusIsFirstFailure(cfg, s, d);
  }

  /** The uploaded part is closed exactly when it was opened, and its close is the last effect. */
  lemma UploadClosedLast(cfg: ApiConfig, s: VideoSteps, d: Derived)
    ensures var t := VideoRun(cfg, s, d).trace;
            && (CloseUpload in t <==> OwnsVideo(s) && s.multipartOk && s.formFileOk)
            && (CloseUpload in t ==> t[|t| - 1] == CloseUpload)
  {
    if !ReachesTempFile(s) {
      RejectedRequestWritesNothing(cfg, s, d);
    }
  }

  /**
   * Once the temporary file exists it is the first effect after the JWT's
   * 401, and whatever happens after it the handler ends by closing it,
   * removing it and closing the upload.
   */
  lemma TempFileRemoved(cfg: ApiConfig, s: VideoSteps, d: Derived)
    requires ReachesTempFile(s) && s.tempFile.Some?
    ensures var t := VideoRun(cfg, s, d).trace; var tp := s.tempFile.value; var n := |JwtPrefix(s)|;
            |t| >= n + 4 && t[n] == CreateTemp(tp) && t[|t| - 3..] == [CloseFile(tp), RemoveFile(tp), CloseUpload]
  {
    var tp := s.tempFile.value;
    var created := JwtPrefix(s) + [CreateTemp(tp)];
    ProcessExtends(cfg, s, d, created);
    var r := ProcessRun(cfg, s, d, created).trace;
    assert r[|JwtPrefix(s)|] == created[|JwtPrefix(s)|];
  }

  /** No effect of the trace closes or removes a file. */
  predicate NoRelease(trace: seq<Effect>)
  {
    forall e | e in trace :: !e.CloseFile? && !e.RemoveFile?
  }

  /** Lines 83-169 close and remove nothing themselves: every release is a deferred one. */
  lemma ProcessReleasesNothing(cfg: ApiConfig, s: VideoSteps, d: Derived, pre: seq<Effect>)
    requires ReachesTempFile(s) && s.tempFile.Some? && NoRelease(pre)
    ensures NoRelease(ProcessRun(cfg, s, d, pre).trace)
  {
    if ReachesUpload(s, d) {
      var processed := Processed(s, d, pre);
      assert NoRelease(processed);
      assert ProcessRun(cfg, s, d, pre) == PublishRun(cfg, s, d, processed);
    }
  }

  /**
   * Whenever the temporary file exists, the only files closed or removed
   * are the temporary file; in particular the fast-start output, whose path
   * differs from it, is never closed nor removed.
   */
  lemma ProcessedOutputKept(cfg: ApiConfig, s: VideoSteps, d: Derived)
    requires ReachesTempFile(s) && s.tempFile.Some?
    ensures var t := VideoRun(cfg, s, d).trace;
            forall e | e in t && (e.CloseFile? || e.RemoveFile?) :: e.path == s.tempFile.value
    ensures d.processed != s.tempFile.value ==>
              CloseFile(d.processed) !in VideoRun(cfg, s, d).trace && RemoveFile(d.processed) !in VideoRun(cfg, s, d).trace
  {
    var created := JwtPrefix(s) + [CreateTemp(s.tempFile.value)];
    ProcessReleasesNothing(cfg, s, d, created);
  }

  /** A failed `os.CreateTemp` panics: nothing is written, stored, closed or removed but the upload's close. */
  lemma FailedTempFilePanics(cfg: ApiConfig, s: VideoSteps, d: Derived)
    requires ReachesTempFile(s) && s.tempFile.None?
    ensures var t := VideoRun(cfg, s, d).trace;
            && Panic in t && t[|t| - 1] == CloseUpload
            && (forall e | e in t :: e.Respond? || e == Panic || e == CloseUpload)
            && FirstStatus(t) == if s.jwtValid then StatusInternalServerError else StatusUnauthorized
  {
    VideoStatusIsFirstFailure(cfg, s, d);
  }

  /** There is no allow-list of video types: whatever media type parsed is the content type of the upload. */
  lemma AnyMediaTypeIsUploaded(cfg: ApiConfig, s: VideoSteps, d: Derived)
    requires ReachesUpload(s, d)
    ensures PutObject(cfg.s3Bucket, d.key, d.processed, s.mediaType.value) in VideoRun(cfg, s, d).trace
  {
    var tp := s.tempFile.value;
    var processed := Processed(s, d, JwtPrefix(s) + [CreateTemp(tp)]);
    var t := VideoRun(cfg, s, d).trace;
    assert t[|processed|] == PublishRun(cfg, s, d, processed).trace[|processed|];
  }

  /** No effect of the trace stores anything. */
  predicate NoStore(trace: seq<Effect>)
  {
    forall e | e in trace :: !e.PutObject? && !e.UpdateVideo?
  }

  /** Lines 83-126 store nothing: the only stores are those of publishing. */
  lemma ProcessStoresNothingBeforeUpload(cfg: ApiConfig, s: VideoSteps, d: Derived, pre: seq<Effect>)
    requires ReachesTempFile(s) && s.tempFile.Some? && !ReachesUpload(s, d) && NoStore(pre)
    ensures NoStore(ProcessRun(cfg, s, d, pre).trace)
  {
  }

  /** Before the handler reaches the upload nothing is put and no record is updated. */
  lemma NothingStoredBeforeUpload(cfg: ApiConfig, s: VideoSteps, d: Derived)
    requires !ReachesUpload(s, d)
    ensures NoStore(VideoRun(cfg, s, d).trace)
  {
    if !ReachesTempFile(s) {
      RejectedRequestWritesNothing(cfg, s, d);
    } else if s.tempFile.None? {
      FailedTempFilePanics(cfg, s, d);
    } else {
      ProcessStoresNothingBeforeUpload(cfg, s, d, JwtPrefix(s) + [CreateTemp(s.tempFile.value)]);
    }
  }

  /** Publishing puts the object first, and updates the record with the stored reference right after a successful put only. */
  lemma PublishStoreOrder(cfg: ApiConfig, s: VideoSteps, d: Derived, pre: seq<Effect>)
    requires ReachesUpload(s, d) && NoStore(pre)
    ensures var t := PublishRun(cfg, s, d, pre).trace; var n := |pre|;
            && n < |t| && t[n] == PutObject(cfg.s3Bucket, d.key, d.processed, s.mediaType.value)
            && (s.putOk ==> n + 1 < |t| && t[n + 1] == UpdateVideo(d.stored))
            && (forall i | 0 <= i < |t| && (t[i].PutObject? || t[i].UpdateVideo?) :: i == n || (i == n + 1 && s.putOk))
  {
  }

  /**
   * `put` occurs once in the trace; `update` follows right after it when
   * `updated`, and no other effect stores anything.
   */
  predicate PutThenUpdate(t: seq<Effect>, put: Effect, update: Effect, updated: bool)
  {
    exists n {:trigger StoresOnlyAt(t, n, updated)} | 0 <= n < |t| :: t[n] == put && (updated ==> n + 1 < |t| && t[n + 1] == update) && StoresOnlyAt(t, n, updated)
  }

  /** The only effects that store are at `n`, and at `n + 1` when `updated`. */
  predicate StoresOnlyAt(t: seq<Effect>, n: int, updated: bool)
  {
    forall i | 0 <= i < |t| && (t[i].PutObject? || t[i].UpdateVideo?) :: i == n || (i == n + 1 && updated)
  }

  /**
   * Once the handler reaches the upload the object is put once, and the
   * record is updated with the stored reference exactly when that put
   * succeeded, right after it; nothing else is stored.
   */
  lemma UpdateOnlyAfterPut(cfg: ApiConfig, s: VideoSteps, d: Derived)
    requires ReachesUpload(s, d)
    ensures PutThenUpdate(VideoRun(cfg, s, d).trace, PutObject(cfg.s3Bucket, d.key, d.processed, s.mediaType.value),
                          UpdateVideo(d.stored), s.putOk)
  {
    var tp := s.tempFile.value;
    var processed := Processed(s, d, JwtPrefix(s) + [CreateTemp(tp)]);
    assert NoStore(processed);
    PublishStoreOrder(cfg, s, d, processed);
    var p := PublishRun(cfg, s, d, processed).trace;
    var t := VideoRun(cfg, s, d).trace;
    assert t == TempCleanup(p, tp);
    var n := |processed|;
    forall i | 0 <= i < |t| && (t[i].PutObject? || t[i].UpdateVideo?)
      ensures i == n || (i == n + 1 && s.putOk)
    {
      assert i < |p|;
      assert p[i] == t[i];
    }
    assert t[n] == PutObject(cfg.s3Bucket, d.key, d.processed, s.mediaType.value);
    assert s.putOk ==> n + 1 < |t| && t[n + 1] == UpdateVideo(d.stored);
    assert StoresOnlyAt(t, n, s.putOk);
  }

  /** No response of the trace is a 200. */
  predicate NoSuccess(trace: seq<Effect>)
  {
    forall e | e in trace :: !(e.Respond? && e.status == StatusOK)
  }

  /** Lines 83-126 answer no 200 themselves. */
  lemma ProcessAnswersNoSuccessBeforeUpload(cfg: ApiConfig, s: VideoSteps, d: Derived, pre: seq<Effect>)
    requires ReachesTempFile(s) && s.tempFile.Some? && !ReachesUpload(s, d) && NoSuccess(pre)
    ensures NoSuccess(ProcessRun(cfg, s, d, pre).trace)
  {
  }

  /** Publishing answers 200 only when every step completes, then with the signed record, which it also ends with. */
  lemma PublishAnswer(cfg: ApiConfig, s: VideoSteps, d: Derived, pre: seq<Effect>)
    requires ReachesUpload(s, d) && NoSuccess(pre)
    ensures var r := PublishRun(cfg, s, d, pre);
            && (forall e | e in r.trace && e.Respond? && e.status == StatusOK :: Completes(s, d) && e.body == VideoBody(d.signed.value))
            && (Completes(s, d) ==> Respond(StatusOK, VideoBody(d.signed.value)) in r.trace && r.video == d.signed.value)
  {
  }

  /** A request check that stops the handler answers with an error code. */
  lemma RequestAnswersNoSuccess(s: VideoSteps)
    requires !ReachesTempFile(s)
    ensures NoSuccess(RequestRun(s).trace)
  {
  }

  /** From the temporary file on, a run that stops before the upload adds no 200. */
  lemma StageAnswersNoSuccessBeforeUpload(cfg: ApiConfig, s: VideoSteps, d: Derived, pre: seq<Effect>)
    requires ReachesTempFile(s) && !ReachesUpload(s, d) && NoSuccess(pre)
    ensures NoSuccess(StageRun(cfg, s, d, pre).trace)
  {
    if s.tempFile.Some? {
      var tp := s.tempFile.value;
      ProcessAnswersNoSuccessBeforeUpload(cfg, s, d, pre + [CreateTemp(tp)]);
    }
  }

  /** Before the handler reaches the upload no 200 is written. */
  lemma NoSuccessBeforeUpload(cfg: ApiConfig, s: VideoSteps, d: Derived)
    requires !ReachesUpload(s, d)
    ensures NoSuccess(VideoRun(cfg, s, d).trace)
  {
    if !ReachesTempFile(s) {
      RequestAnswersNoSuccess(s);
    } else {
      StageAnswersNoSuccessBeforeUpload(cfg, s, d, JwtPrefix(s));
    }
  }

  /**
   * A 200 is written only when every step up to the presign succeeds, and
   * then it carries the signed record, which is also the record the handler
   * holds at the end.
   */
  lemma SignedRecordAnswered(cfg: ApiConfig, s: VideoSteps, d: Derived)
    ensures var r := VideoRun(cfg, s, d);
            && (forall e | e in r.trace && e.Respond? && e.status == StatusOK :: Completes(s, d) && e.body == VideoBody(d.signed.value))
            && (Completes(s, d) ==> Respond(StatusOK, VideoBody(d.signed.value)) in r.trace && r.video == d.signed.value)
  {
    if !ReachesUpload(s, d) {
      NoSuccessBeforeUpload(cfg, s, d);
    } else {
      var tp := s.tempFile.value;
      var processed := Processed(s, d, JwtPrefix(s) + [CreateTemp(tp)]);
      assert NoSuccess(processed);
      PublishAnswer(cfg, s, d, processed);
      var r := PublishRun(cfg, s, d, processed);
      assert VideoRun(cfg, s, d) == Run(TempCleanup(r.trace, tp), r.video);
    }
  }

  /**
   * The JWT error at line 36 does not stop the handler: with an invalid
   * token whose user ID still matches, the status written is 401 while the video
   * is uploaded, stored and answered.
   */
  lemma InvalidTokenStillUploads(cfg: ApiConfig, s: VideoSteps, d: Derived)
    requires !s.jwtValid && Completes(s, d)
    ensures var t := VideoRun(cfg, s, d).trace;
            FirstStatus(t) == StatusUnauthorized && UpdateVideo(d.stored) in t
            && Respond(StatusOK, VideoBody(d.signed.value)) in t
  {
    VideoStatusIsFirstFailure(cfg, s, d);
    UpdateOnlyAfterPut(cfg, s, d);
    SignedRecordAnswered(cfg, s, d);
    var t := VideoRun(cfg, s, d).trace;
    var n :| 0 <= n < |t| && t[n] == PutObject(cfg.s3Bucket, d.key, d.processed, s.mediaType.value)
             && (s.putOk ==> n + 1 < |t| && t[n + 1] == UpdateVideo(d.stored))
             && StoresOnlyAt(t, n, s.putOk);
    assert t[n + 1] in t;
  }

  /**
   * The `getAssetPath` error at line 104 does not stop the handler either:
   * the status written is 500 while the video is still uploaded under the key
   * the empty asset path gives.
   */
  lemma AssetPathFailureStillUploads(cfg: ApiConfig, s: VideoSteps, d: Derived)
    requires s.jwtValid && d.assetPath.err.Some? && ReachesUpload(s, d)
    ensures var t := VideoRun(cfg, s, d).trace;
            FirstStatus(t) == StatusInternalServerError && PutObject(cfg.s3Bucket, d.key, d.processed, s.mediaType.value) in t
  {
    VideoStatusIsFirstFailure(cfg, s, d);
    AnyMediaTypeIsUploaded(cfg, s, d);
  }

  /** The extension `getAssetPath` would use holds no comma (or there is none). */
  predicate ExtensionWithoutComma(lookup: ExtensionLookup)
  {
    lookup.LookupFailed? || lookup.list == [] || StoredReferenceSeparator !in lookup.list[0]
  }

  /**
   * The object key, lines 102 and 127-136: the aspect-ratio prefix, a slash
   * and either the 32 hexadecimal characters of the random key followed by
   * the media type's first extension, or nothing when that lookup failed.
   */
  lemma UploadKeyShape(cfg: ApiConfig, mediaTypes: string -> ExtensionLookup, s: VideoSteps)
    requires s.mediaType.Some? && VideoAspectRatio.GetVideoAspectRatio(s.probe).Success?
    ensures var d := Derive(cfg, mediaTypes, s);
            var lookup := mediaTypes(s.mediaType.value);
            var name := RandomVideoName(s.randomBytes);
            d.key == VideoPrefix(VideoAspectRatio.GetVideoAspectRatio(s.probe).value) + "/"
                     + (if lookup.LookupFailed? || lookup.list == [] then "" else name + lookup.list[0])
  {
  }

  /** No comma can come from the prefix or the random name: only the extension could bring one. */
  lemma UploadKeyWithoutComma(cfg: ApiConfig, mediaTypes: string -> ExtensionLookup, s: VideoSteps)
    requires s.mediaType.Some? && ExtensionWithoutComma(mediaTypes(s.mediaType.value))
    ensures StoredReferenceSeparator !in Derive(cfg, mediaTypes, s).key
  {
    var name := RandomVideoName(s.randomBytes);
    var asset := GetAssetPath(name, s.mediaType.value, mediaTypes);
    var aspect := VideoAspectRatio.GetVideoAspectRatio(s.probe);
    var prefix := VideoPrefix(if aspect.Success? then aspect.value else "");
    assert Derive(cfg, mediaTypes, s).key == S3Key(prefix, asset.value);
    PrefixWithoutComma(if aspect.Success? then aspect.value else "");
    HexNameWithoutComma(s.randomBytes);
    var lookup := mediaTypes(s.mediaType.value);
    if asset.err.None? {
      assert asset.value == name + lookup.list[0];
    }
    assert StoredReferenceSeparator !in asset.value;
  }

  /** None of the three key prefixes holds a comma. */
  lemma PrefixWithoutComma(aspect: string)
    ensures StoredReferenceSeparator !in VideoPrefix(aspect)
  {
  }

  /** A hexadecimal name holds no comma. */
  lemma HexNameWithoutComma(key: VideoKeyBytes)
    ensures StoredReferenceSeparator !in RandomVideoName(key)
  {
    var name := RandomVideoName(key);
    forall i | 0 <= i < |name|
      ensures name[i] != StoredReferenceSeparator
    {
      assert Encoding.IsLowerHexDigit(name[i]);
    }
  }

  /**
   * What the client is answered with, lines 151-163: with a bucket and an
   * extension free of commas, the stored reference decodes back into the
   * very bucket and key the object was put under, and the signed record is
   * the stored one with the URL the presigner returns for them, valid 60
   * minutes.
   */
  lemma SignedForUploadedObject(cfg: ApiConfig, mediaTypes: string -> ExtensionLookup, s: VideoSteps)
    requires s.mediaType.Some? && s.dbVideo.Some?
    requires StoredReferenceSeparator !in cfg.s3Bucket && ExtensionWithoutComma(mediaTypes(s.mediaType.value))
    ensures var d := Derive(cfg, mediaTypes, s);
            var signed := cfg.presign(PresignRequest(cfg.s3Bucket, d.key, PresignTtlMinutes));
            && d.stored == s.dbVideo.value.(videoURL := Some(StoredVideoReference(cfg.s3Bucket, d.key)))
            && d.signed == if signed.Success? then Returned(s.dbVideo.value.(videoURL := Some(signed.value)), None)
                           else Returned(ZeroVideo, Some(signed.error))
  {
    var d := Derive(cfg, mediaTypes, s);
    UploadKeyWithoutComma(cfg, mediaTypes, s);
    StoredReferenceRoundTrip(cfg, s.dbVideo.value, cfg.s3Bucket, d.key);
  }

  /**
   * A bucket name holding a comma breaks every upload at the presign: the
   * record has been updated with a reference that cannot be decoded, and
   * the handler answers 500.
   */
  lemma CommaInBucketFailsEveryUpload(cfg: ApiConfig, mediaTypes: string -> ExtensionLookup, s: VideoSteps)
    requires StoredReferenceSeparator in cfg.s3Bucket
    ensures Derive(cfg, mediaTypes, s).signed.err.Some?
    ensures !Completes(s, Derive(cfg, mediaTypes, s))
  {
    var d := Derive(cfg, mediaTypes, s);
    var video := if s.dbVideo.Some? then s.dbVideo.value else ZeroVideo;
    CommaInBucketRejected(cfg, video, cfg.s3Bucket, d.key);
  }

  /** No prefix holds a slash. */
  lemma PrefixWithoutSlash(aspect: string)
    ensures '/' !in VideoPrefix(aspect)
  {
  }

  /** With slash-free prefixes, the key gives back both the prefix and the asset path. */
  lemma S3KeyInjective(p1: string, a1: string, p2: string, a2: string)
    requires '/' !in p1 && '/' !in p2
    ensures S3Key(p1, a1) == S3Key(p2, a2) ==> p1 == p2 && a1 == a2
  {
  }

  /** The media-type lookup of `getAssetPath` finds an extension. */
  predicate LookupSucceeds(mediaTypes: string -> ExtensionLookup, s: VideoSteps)
  {
    var lookup := mediaTypes(if s.mediaType.Some? then s.mediaType.value else "");
    lookup.Extensions? && lookup.list != []
  }

  /**
   * Two uploads whose media-type lookups both succeed and whose random keys
   * differ never share an object key, whatever their media types and aspect
   * ratios.
   */
  lemma DistinctRandomKeysDistinctObjects(cfg: ApiConfig, mediaTypes: string -> ExtensionLookup, s1: VideoSteps, s2: VideoSteps)
    requires s1.randomBytes != s2.randomBytes
    requires LookupSucceeds(mediaTypes, s1) && LookupSucceeds(mediaTypes, s2)
    ensures Derive(cfg, mediaTypes, s1).key != Derive(cfg, mediaTypes, s2).key
  {
    var d1, d2 := Derive(cfg, mediaTypes, s1), Derive(cfg, mediaTypes, s2);
    var n1, n2 := RandomVideoName(s1.randomBytes), RandomVideoName(s2.randomBytes);
    assert n1 != n2;
    var a1, a2 := d1.assetPath.value, d2.assetPath.value;
    assert a1[..32] == n1 && a2[..32] == n2;
    var r1 := if d1.aspect.Success? then d1.aspect.value else "";
    var r2 := if d2.aspect.Success? then d2.aspect.value else "";
    PrefixWithoutSlash(r1);
    PrefixWithoutSlash(r2);
    S3KeyInjective(VideoPrefix(r1), a1, VideoPrefix(r2), a2);
  }

  /**
   * The missing return at line 104 makes every upload whose media-type
   * lookup fails go to the same key, the bare prefix and a slash, whatever
   * its random bytes: two such uploads with the same aspect ratio overwrite
   * one object.
   */
  lemma FailedLookupsCollide(cfg: ApiConfig, mediaTypes: string -> ExtensionLookup, s1: VideoSteps, s2: VideoSteps)
    requires !LookupSucceeds(mediaTypes, s1) && !LookupSucceeds(mediaTypes, s2)
    requires VideoAspectRatio.GetVideoAspectRatio(s1.probe) == VideoAspectRatio.GetVideoAspectRatio(s2.probe)
    ensures Derive(cfg, mediaTypes, s1).key == Derive(cfg, mediaTypes, s2).key
    ensures var key := Derive(cfg, mediaTypes, s1).key; |key| > 0 && key[|key| - 1] == '/'
  {
  }

  /** When `put` is stored once and followed only by an update, it is the only put of the trace. */
  lemma OnlyPut(t: seq<Effect>, put: Effect, update: Effect, updated: bool)
    requires PutThenUpdate(t, put, update, updated) && update.UpdateVideo?
    ensures forall e | e in t && e.PutObject? :: e == put
  {
    var n :| 0 <= n < |t| && t[n] == put && (updated ==> n + 1 < |t| && t[n + 1] == update) && StoresOnlyAt(t, n, updated);
    forall e | e in t && e.PutObject?
      ensures e == put
    {
      var i :| 0 <= i < |t| && t[i] == e;
    }
  }

  /** Every put of the run sends the fast-start output `d.processed`. */
  lemma PutsProcessedOutput(cfg: ApiConfig, s: VideoSteps, d: Derived)
    requires ReachesUpload(s, d)
    ensures var t := VideoRun(cfg, s, d).trace;
            forall e | e in t && e.PutObject? :: e.source == d.processed
  {
    var t := VideoRun(cfg, s, d).trace;
    UpdateOnlyAfterPut(cfg, s, d);
    OnlyPut(t, PutObject(cfg.s3Bucket, d.key, d.processed, s.mediaType.value), UpdateVideo(d.stored), s.putOk);
  }

  /**
   * The body of the upload, line 141, is the file opened at line 122: the
   * fast-start output, never the temporary file the upload was copied into.
   */
  lemma UploadsProcessedOutput(cfg: ApiConfig, mediaTypes: string -> ExtensionLookup, s: VideoSteps)
    requires ReachesUpload(s, Derive(cfg, mediaTypes, s))
    ensures var t := VideoRun(cfg, s, Derive(cfg, mediaTypes, s)).trace;
            forall e | e in t && e.PutObject? ::
              e.source == FastStart.OutputPath(s.tempFile.value) && e.source != s.tempFile.value
  {
    PutsProcessedOutput(cfg, s, Derive(cfg, mediaTypes, s));
    DerivedOutputPath(cfg, mediaTypes, s);
  }

  /** The fast-start output is the temporary file's path with ".processing" before its extension, never the temporary file. */
  lemma DerivedOutputPath(cfg: ApiConfig, mediaTypes: string -> ExtensionLookup, s: VideoSteps)
    requires s.tempFile.Some?
    ensures Derive(cfg, mediaTypes, s).processed == FastStart.OutputPath(s.tempFile.value)
    ensures Derive(cfg, mediaTypes, s).processed != s.tempFile.value
  {
    FastStart.OutputPathSameDirectory(s.tempFile.value);
  }
}
