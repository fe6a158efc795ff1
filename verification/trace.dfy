/**
 * What a handler does to the outside world, as an ordered trace of effects,
 * and the status it writes. The HTTP response writer keeps the first status
 * written; later writes of a header are ignored, so the status written is
 * that of the first response in the trace, or 200 when the handler never
 * writes one.
 */
module Trace {
  import opened Wrappers
  import opened Database

  const StatusOK := 200
  const StatusBadRequest := 400
  const StatusUnauthorized := 401
  const StatusInternalServerError := 500

  /** `respondWithError` sends an error message; `respondWithJSON` a record. */
  datatype Body = ErrorBody(message: Message) | VideoBody(video: Video)

  /** The error messages the two upload handlers send, one constructor per distinct wording. */
  datatype Message =
    | InvalidId | JwtMissing | JwtNotValidated | JwtInvalid | MetadataLookupFailed | IllegalAccess
    | InvalidMultipartForm | VideoFileMissing | ThumbnailFileMissing | InvalidContentType
    | InvalidFileType | UnsupportedFileType | TempFileCreateFailed | FileCreateFailed | CopyFailed
    | UploadSeekFailed | RandomKeyFailed | AssetTypeFailed | TempSeekFailed | AspectRatioFailed
    | ProcessingFailed | ProcessedOpenFailed | S3UploadFailed | UpdateFailed | PresignUrlFailed

  datatype Effect =
    | Respond(status: int, body: Body)
    | CloseUpload                               // deferred Close of the uploaded form file
    | CreateTemp(path: string)                  // os.CreateTemp, with the name it chose
    | CreateFile(path: string)                  // os.Create
    | WriteFile(path: string)                   // io.Copy of the upload into the file
    | CloseFile(path: string)
    | RemoveFile(path: string)
    | Probe(path: string)                       // the ffprobe run
    | FastStart(input: string, output: string)  // the ffmpeg run
    | OpenFile(path: string)                    // os.Open
    | PutObject(bucket: string, key: string, source: string, contentType: string) // source: the file sent as the body
    | UpdateVideo(video: Video)                 // cfg.db.UpdateVideo
    | Panic                                     // a nil pointer dereference

  /** What one run of a handler leaves behind: its effects in order and its record. */
  datatype Run = Run(trace: seq<Effect>, video: Video)

  /** `respondWithError`: an error response written after the effects `trace`. */
  function Fail(trace: seq<Effect>, code: int, message: Message): seq<Effect>
  {
    trace + [Respond(code, ErrorBody(message))]
  }

  predicate NoResponse(trace: seq<Effect>)
  {
    forall e | e in trace :: !e.Respond?
  }

  /** The handler did nothing but answer. */
  predicate NoEffects(trace: seq<Effect>)
  {
    forall e | e in trace :: e.Respond?
  }

  /** The status of the first response written, if any. */
  function Header(trace: seq<Effect>): Option<int>
  {
    if trace == [] then None
    else if trace[0].Respond? then Some(trace[0].status)
    else Header(trace[1..])
  }

  /** The header is that of the first response in the trace, and there is none without a response. */
  lemma {:induction false} HeaderIsFirstResponse(trace: seq<Effect>)
    ensures Header(trace).None? <==> NoResponse(trace)
    ensures Header(trace).Some? ==>
              exists i | 0 <= i < |trace| :: trace[i].Respond? && trace[i].status == Header(trace).value && NoResponse(trace[..i])
  {
    if trace == [] {
    } else if trace[0].Respond? {
      assert NoResponse(trace[..0]);
    } else {
      HeaderIsFirstResponse(trace[1..]);
      var h := Header(trace[1..]);
      if h.Some? {
        var i :| 0 <= i < |trace[1..]| && trace[1..][i].Respond? && trace[1..][i].status == h.value && NoResponse(trace[1..][..i]);
        assert trace[..i + 1] == [trace[0]] + trace[1..][..i];
      } else {
        assert trace == [trace[0]] + trace[1..];
      }
    }
  }

  /** The status written: that of the first `WriteHeader`, or 200 when there is none. */
  function FirstStatus(trace: seq<Effect>): (status: int)
    ensures NoResponse(trace) ==> status == StatusOK
    ensures forall i | 0 <= i < |trace| && trace[i].Respond? && NoResponse(trace[..i]) :: status == trace[i].status
  {
    HeaderIsFirstResponse(trace);
    var h := Header(trace);
    if h.None? then StatusOK
    else
      forall i | 0 <= i < |trace| && trace[i].Respond? && NoResponse(trace[..i])
        ensures h.value == trace[i].status
      {
        var k :| 0 <= k < |trace| && trace[k].Respond? && trace[k].status == h.value && NoResponse(trace[..k]);
      }
      h.value
  }

  /** A status already written stays the status whatever the handler does after it. */
  lemma FirstStatusKept(written: seq<Effect>, trace: seq<Effect>)
    requires |written| <= |trace| && trace[..|written|] == written && !NoResponse(written)
    ensures FirstStatus(trace) == FirstStatus(written)
  {
    HeaderIsFirstResponse(written);
    var i :| 0 <= i < |written| && written[i].Respond? && written[i].status == Header(written).value
             && NoResponse(written[..i]);
    assert trace[i] == written[i];
    assert trace[..i] == written[..i];
  }
}
