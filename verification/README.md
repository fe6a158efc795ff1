# Tubely upload handlers in Dafny

This project models the upload core of the Tubely video service, a Go HTTP
server. Clients upload a thumbnail image or a video for a video record they
own. The model covers these parts:

- **The thumbnail handler.** It accepts only `image/jpeg` and `image/png`.
  It names the file with 32 random bytes in unpadded URL-safe base64, writes
  it under the assets directory, and stores a `http://localhost:<port>/assets/<name>`
  URL in the record.
- **The video handler.** It copies the upload to a temporary file. It then
  asks ffprobe for the first stream's dimensions, classifies the aspect ratio
  (`16:9`, `9:16` or `other`), runs ffmpeg to produce a fast-start copy next
  to the temporary file, and uploads that copy to S3. The key is
  `<landscape|portrait|other>/<32 hex characters><extension>`. The record
  stores `bucket,key`. The handler answers with the record after the stored
  reference has been exchanged for a presigned URL valid for 60 minutes.
- **The helpers they share** (`assets.go`): getAssetPath, getAssetDiskPath,
  getAssetURL and dbVideoToSignedVideo.
- **The Go library behaviour the helpers rely on.** This covers
  `filepath.Ext`, `filepath.Join`/`Clean`, `strings.Split`, and hexadecimal
  and RawURL base64 encoding.

## How the handlers are modelled

Each handler is a method. Its inputs are:

- the configuration;
- the MIME extension table, as a function;
- a record of the outcome of every external call the handler makes. These
  are the JWT check, the database, multipart parsing, file-system calls,
  `crypto/rand`, ffprobe, ffmpeg and the S3 upload. The presigner is not
  among them: it is a function in the configuration.

The method returns three things:

- the status written (that of the first `WriteHeader`, or 200);
- the trace of effects, in order: responses written, files created, written,
  closed and removed, the S3 upload, the record update, a panic;
- the video value the handler ends with.

The status is the first response in the trace, because `net/http` ignores
every `WriteHeader` after the first. Deferred calls are appended in
last-in-first-out order when the handler returns.

The model follows the code as written, including these quirks:

- **No return after a failed JWT validation** (`handler_upload_video.go:36`).
  The video handler writes 401 and carries on. It checks ownership against the
  user ID the validator returned, and can go on to upload and store the video.
  The status written is still 401.
- **No return after a failed `os.CreateTemp`** (`handler_upload_video.go:76`).
  After the 500, the deferred `os.Remove(newFile.Name())` is evaluated on a
  nil file and panics. The deferred close of the uploaded part still runs.
- **No return after a failed getAssetPath** (`handler_upload_video.go:104`).
  The handler writes 500 and goes on with an empty asset path. The object is
  uploaded under `<prefix>/`, so every such upload with the same aspect
  ratio overwrites the same object, whatever its random key.
- **The ffmpeg output is never closed or removed.** Only the temporary upload
  is.
- **The video handler has no media-type allow-list.** Any parseable
  `Content-Type` is uploaded.
- **An ownership mismatch answers 401** in both handlers, not 403. A database
  lookup failure answers 500.
- **dbVideoToSignedVideo splits the stored reference on every comma** and
  demands exactly two parts. It does not split on the first comma only. A
  bucket name containing a comma therefore makes every upload fail at the
  signing step, after the object and the record have been stored.

## Model

| member | source | states |
|---|---|---|
| VideoAspectRatio.AspectRatio | get_video_aspect_ration.go:41-57 | the result is always one of `16:9`, `9:16`, `other` |
| VideoAspectRatio.LandscapeExactly | get_video_aspect_ration.go:49-51 | `16:9` exactly when 100·\|9w − 16h\| < 9·\|h\|, i.e. when w/h is within 0.01 of 16/9 |
| VideoAspectRatio.PortraitExactly | get_video_aspect_ration.go:52-53 | `9:16` exactly when the landscape test fails and 100·\|16w − 9h\| < 16·\|h\| |
| VideoAspectRatio.OtherExactly | get_video_aspect_ration.go:54-55 | `other` exactly when neither window contains the ratio |
| VideoAspectRatio.LandscapeWindowExact | get_video_aspect_ration.go:42-50 | the real-valued distance test against 16/9 agrees with the integer window for every nonzero height |
| VideoAspectRatio.PortraitWindowExact | get_video_aspect_ration.go:42-53 | the real-valued distance test against 9/16 agrees with the integer window for every nonzero height |
| VideoAspectRatio.WindowsDisjoint | get_video_aspect_ration.go:49-56 | no dimensions lie in both windows, so the order of the switch cases does not matter |
| VideoAspectRatio.ScaleInvariant | get_video_aspect_ration.go:41-42 | scaling width and height by the same positive factor keeps the classification |
| VideoAspectRatio.ZeroHeightIsOther | get_video_aspect_ration.go:42-55 | a zero height is classified `other` |
| VideoAspectRatio.CommonResolutions | get_video_aspect_ration.go:41-57 | 1920×1080 is `16:9`, 1080×1920 is `9:16`, 1000×1000 is `other` |
| VideoAspectRatio.GetVideoAspectRatio | get_video_aspect_ration.go:20-39 | a failed ffprobe run, undecodable output and an empty stream list are three distinct errors; otherwise the result is the classification of the first stream |
| VideoAspectRatio.OnlyFirstStreamCounts | get_video_aspect_ration.go:34-38 | streams after the first never change the result |
| FilePath.Ext | process_video_for_fast_start.go:11 | the result is empty exactly when the last path element has no dot; otherwise it is the suffix from the last dot, with no dot or separator after it |
| FilePath.ExtUnique | process_video_for_fast_start.go:11 | the extension is the only suffix with that shape |
| FilePath.ExtOfFinalElement | process_video_for_fast_start.go:11 | the extension of `dir/name` is the extension of `name` |
| FilePath.Clean | assets.go:32 | a cleaned path is never empty |
| FilePath.CleanIdempotent | assets.go:32 | cleaning a cleaned path changes nothing |
| FilePath.CleanRemovesParent | assets.go:32 | `dir/x/../name` cleans to what `dir/name` cleans to, for a plain element `x` |
| FilePath.SplitParentPath | assets.go:32 | the elements of `dir/x/../name` are those of `dir`, then `x`, `..` and `name` |
| FilePath.CleanAssembled | assets.go:32 | a cleaned element list put back together into a path is left unchanged by cleaning |
| FilePath.CleanDot | assets.go:32 | `.` cleans to itself |
| FilePath.CleanRoot | assets.go:32 | `/` cleans to itself |
| FilePath.CleanElements | assets.go:32 | cleaning leaves no empty or `.` element, and no `..` in a rooted path |
| FilePath.ParentRemovesPrevious | assets.go:32 | an inner `..` removes the plain element before it, whatever comes before and after |
| FilePath.CleanElementsFold | assets.go:32 | the elements after a prefix are rewritten the same way for any two prefixes that clean alike |
| FilePath.CleanElementsWithoutParent | assets.go:32 | without `..`, cleaning keeps exactly the non-empty, non-`.` elements of the input, in their order |
| FilePath.KeptAppend | assets.go:32 | keeping the non-empty, non-`.` elements of a list with one more element appends what that element keeps |
| FilePath.CleanElementsFrom | assets.go:32 | every kept element is one of the input's elements or a `..` |
| FilePath.CleanElementsIsClean | assets.go:32 | the result has no empty or `.` element, `..` only in a leading run, and none in a rooted path |
| FilePath.CleanListFixed | assets.go:32 | a list already in that form is left as it is |
| FilePath.CleanStepKeepsClean | assets.go:32 | the rewriting step keeps the next element of a list already in that form |
| FilePath.CleanElementsIdempotent | assets.go:32 | rewriting the elements twice is rewriting them once |
| FilePath.Join | assets.go:32 | the result is empty exactly when both arguments are |
| FilePath.JoinCleanDirectory | assets.go:32 | joining a clean directory with a plain file name is `dir/name` |
| Strings.Split | assets.go:48 | there is one more part than separators, and no part contains the separator |
| Strings.Count | assets.go:48-49 | the count is zero exactly when the separator does not occur |
| Strings.SplitJoin | assets.go:48 | splitting the join of comma-free parts gives the parts back |
| Strings.JoinSplit | assets.go:48 | joining the parts of a split gives the string back |
| Strings.SplitAround | assets.go:48 | splitting around one separator splits each side independently |
| Encoding.HexEncode | handler_upload_video.go:100 | two lowercase hexadecimal digits per byte |
| Encoding.HexRoundTrip | handler_upload_video.go:100 | decoding the encoding of any bytes gives the bytes back |
| Encoding.Base64UrlEncode | handler_upload_thumbnail.go:85 | ⌈4n/3⌉ characters from the URL-safe alphabet, with no padding (section 5 of RFC 4648) |
| Encoding.GroupRoundTrip | handler_upload_thumbnail.go:85 | each group of one to three bytes decodes back from its two to four characters |
| Encoding.Base64UrlRoundTrip | handler_upload_thumbnail.go:85 | decoding the encoding of any bytes gives the bytes back |
| FastStart.OutputPath | process_video_for_fast_start.go:11-12 | the output is the input with `.processing` inserted before the extension, so it keeps the extension and is 11 characters longer |
| FastStart.OutputPathWithExtension | process_video_for_fast_start.go:11-12 | `stem.ext` becomes `stem.processing.ext` |
| FastStart.OutputPathWithoutExtension | process_video_for_fast_start.go:11-12 | a path whose last element has no dot gets `.processing` appended |
| FastStart.OutputPathSameDirectory | process_video_for_fast_start.go:10-12 | the output differs from the input and shares every directory prefix with it |
| FastStart.OutputPathExt | process_video_for_fast_start.go:11-12 | the output's extension is the input's, or `.processing` when the input has none |
| FastStart.ProcessVideoForFastStart | process_video_for_fast_start.go:9-32 | success exactly when ffmpeg succeeds on that input and output pair; then the result is the output path |
| Assets.GetAssetPath | assets.go:22-29 | an error exactly when the media type has no known extension, and then an empty path; otherwise the random string followed by the first extension |
| Assets.AssetPathsDistinct | assets.go:22-29 | distinct random strings of equal length give distinct asset paths |
| Assets.GetAssetDiskPath | assets.go:31-33 | the disk path is empty only when the root and the asset path both are |
| Assets.AssetDiskPathInRoot | assets.go:31-33 | a plain asset name lands directly inside a clean assets root |
| Assets.GetAssetURL | assets.go:35-37 | the URL starts with `http://localhost:`, the port and `/assets/`, and the asset path can be read back from the rest |
| Assets.AssetURLInjective | assets.go:35-37 | different asset paths get different URLs |
| Assets.DbVideoToSignedVideo | assets.go:43-60 | no stored URL: the record comes back unchanged; a reference without exactly one comma: an invalid-format error that carries the reference; otherwise the presigner is asked for the bucket and key with a 60-minute lifetime, and its URL replaces the reference, or its error comes back with an empty record |
| Assets.StoredVideoReference | handler_upload_video.go:151-153 | the reference holds the bucket, then one comma at index `len(bucket)`, then the key, each readable back by position |
| Assets.StoredReferenceRoundTrip | assets.go:43-60 | for a comma-free bucket and key, signing a stored `bucket,key` presigns exactly that bucket and key |
| Assets.CommaInBucketRejected | assets.go:48-50 | a bucket containing a comma makes any stored reference an invalid-format error |
| Trace.FirstStatus | handler_upload_video.go:34-50 | the status written is that of the first response in the trace, or 200 if none was |
| Trace.HeaderIsFirstResponse | handler_upload_video.go:34-50 | a header exists exactly when some response was written, and it is the status of the first one |
| Trace.FirstStatusKept | handler_upload_video.go:34-50 | effects added after a response never change the status written |
| UploadVideo.RandomVideoName | handler_upload_video.go:95-100 | 32 lowercase hexadecimal characters that decode back to the 16 random bytes |
| UploadVideo.VideoPrefix | handler_upload_video.go:127-135 | `landscape` exactly for `16:9`, `portrait` exactly for `9:16`, `other` for everything else |
| UploadVideo.PrefixFollowsDimensions | handler_upload_video.go:127-135 | the key prefix is `landscape` or `portrait` exactly when the dimensions fall in the corresponding window |
| UploadVideo.S3Key | handler_upload_video.go:136 | the key is the prefix, a slash and the asset path |
| UploadVideo.PrefixWithoutSlash | handler_upload_video.go:127-135 | none of the three prefixes holds a slash |
| UploadVideo.S3KeyInjective | handler_upload_video.go:136 | for slash-free prefixes, equal keys have equal prefixes and equal asset paths |
| UploadVideo.HandleUploadVideo | handler_upload_video.go:17-170 | the trace and final record equal those of the function `VideoRun` (which the lemmas about the handler are stated on), and the status is the first response written, which the table `VideoStatus` gives as the first failing check's code |
| UploadVideo.CheckVideoRequest | handler_upload_video.go:19-73 | the handler proceeds exactly when the ID, token, record, ownership, form, file and media type all succeed; the JWT failure only writes 401 and does not stop it |
| UploadVideo.StageVideo | handler_upload_video.go:74-81 | creates the temporary file; on failure writes 500, then panics when the `defer` statement evaluates `Name()` on the nil file, so the remove is never registered and only the upload's close runs; on success the rest of the handler runs, then the temporary file's deferred close and remove |
| UploadVideo.ProcessTempFile | handler_upload_video.go:83-126 | copy, seek, random key, asset path (no return on failure), seek, probe, fast start and open, each failing check writing 500 |
| UploadVideo.PublishVideo | handler_upload_video.go:127-169 | upload the fast-start output (the file opened at line 122) under the prefixed key, store `bucket,key`, sign and answer 200 with the signed record |
| UploadVideo.VideoStatusIsFirstFailure | handler_upload_video.go:17-170 | the status written is the first failing check's code in handler order, 401 when only the JWT failed, 200 otherwise |
| UploadVideo.StageStatus | handler_upload_video.go:74-170 | from the temporary file on, the first response written is the first failing step's code |
| UploadVideo.ProcessStatus | handler_upload_video.go:83-170 | from the copy on, the first response written is the first failing step's code |
| UploadVideo.PublishStatus | handler_upload_video.go:138-169 | from the upload on, the status written is 200 exactly when upload, update and signing all succeed, and 500 otherwise |
| UploadVideo.ProcessAssetFailureStatus | handler_upload_video.go:102-105 | an unknown extension makes the status written 500 even though the handler continues |
| UploadVideo.RejectedRequestWritesNothing | handler_upload_video.go:19-73 | a request rejected before the temporary file touches no file, S3 object or record; only the uploaded part is closed, if it was opened |
| UploadVideo.OwnerMismatchIsRejected | handler_upload_video.go:46-50 | a user who does not own the record gets 401, and nothing is written or stored |
| UploadVideo.UploadClosedLast | handler_upload_video.go:60-66 | the uploaded part is closed exactly when it was opened, and it is the last effect |
| UploadVideo.TempFileRemoved | handler_upload_video.go:74-81 | once the temporary file is created, the run ends by closing it, removing it, then closing the upload |
| UploadVideo.ProcessedOutputKept | handler_upload_video.go:117-126 | the only file ever closed or removed is the temporary one; the fast-start output is left on disk |
| UploadVideo.FailedTempFilePanics | handler_upload_video.go:74-81 | when CreateTemp fails, the run writes a response, panics, closes the upload and does nothing else; the status written is 500, or 401 after a JWT failure |
| UploadVideo.AnyMediaTypeIsUploaded | handler_upload_video.go:69-73 | every parseable media type that reaches the upload step is sent to S3 with that content type |
| UploadVideo.NothingStoredBeforeUpload | handler_upload_video.go:83-149 | a run that stops before the S3 upload neither uploads nor updates the record |
| UploadVideo.PublishStoreOrder | handler_upload_video.go:138-160 | the S3 upload comes first; the record update immediately follows it, and only when the upload succeeded |
| UploadVideo.UpdateOnlyAfterPut | handler_upload_video.go:138-160 | the record is updated only immediately after a successful upload of the same object |
| UploadVideo.NoSuccessBeforeUpload | handler_upload_video.go:17-149 | a run that stops before the S3 upload never writes a 200 |
| UploadVideo.SignedRecordAnswered | handler_upload_video.go:151-169 | a 200 is written only when every step succeeded, with the signed record as its body; a completed run writes it and ends with the signed record |
| UploadVideo.InvalidTokenStillUploads | handler_upload_video.go:34-37 | with an invalid token the handler still stores the record and writes a 200 body, while the status written is 401 |
| UploadVideo.AssetPathFailureStillUploads | handler_upload_video.go:102-105 | an unknown extension still leads to an S3 upload, while the status written is 500 |
| UploadVideo.UploadKeyShape | handler_upload_video.go:100-136 | the key is the prefix of the first stream's ratio, `/`, and then the hex name with the first extension, or nothing when the extension lookup failed |
| UploadVideo.UploadKeyWithoutComma | handler_upload_video.go:136-153 | when the extension has no comma, the key has none |
| UploadVideo.SignedForUploadedObject | handler_upload_video.go:136-167 | with a comma-free bucket and extension, the signed URL is the presigner's answer for exactly the uploaded bucket and key |
| UploadVideo.CommaInBucketFailsEveryUpload | handler_upload_video.go:151-167 | a bucket containing a comma makes signing fail, so no upload completes |
| UploadVideo.DistinctRandomKeysDistinctObjects | handler_upload_video.go:95-136 | when both media-type lookups succeed, different random bytes give different S3 keys, whatever the media types and aspect ratios |
| UploadVideo.FailedLookupsCollide | handler_upload_video.go:102-105 | when both lookups fail, uploads whose probes give the same aspect result get the same key, ending in `/`, whatever their random bytes |
| UploadVideo.OnlyPut | handler_upload_video.go:138-150 | a put stored once and followed only by the record update is the only put of the trace |
| UploadVideo.PutsProcessedOutput | handler_upload_video.go:122-150 | every put of the run sends the derived fast-start output |
| UploadVideo.UploadsProcessedOutput | handler_upload_video.go:117-150 | the file sent to S3 is `OutputPath` of the temporary file, never the temporary file itself |
| UploadVideo.DerivedOutputPath | handler_upload_video.go:117 | the fast-start output path derives from the temporary file's name and differs from it |
| UploadThumbnail.ThumbnailName | handler_upload_thumbnail.go:83-85 | 43 URL-safe base64 characters with no `=` or `/`, which decode back to the 32 random bytes |
| UploadThumbnail.HandleUploadThumbnail | handler_upload_thumbnail.go:19-126 | the trace and final record equal those of the function `ThumbnailRun` (which the lemmas about the handler are stated on), and the status is the first response written, which the table `ThumbnailStatus` gives as the first failing check's code |
| UploadThumbnail.CheckThumbnailRequest | handler_upload_thumbnail.go:20-80 | the handler proceeds exactly when every request check and the jpeg/png allow-list pass |
| UploadThumbnail.StoreThumbnail | handler_upload_thumbnail.go:82-96 | the asset path and the seek of the upload, each failing with 500 |
| UploadThumbnail.WriteThumbnail | handler_upload_thumbnail.go:98-125 | create, copy, update and the 200 answer with the updated record; the created file is closed before the upload |
| UploadThumbnail.ThumbnailStatusIsFirstFailure | handler_upload_thumbnail.go:19-126 | the status written is the first failing check's code in handler order, 200 otherwise |
| UploadThumbnail.RejectedRequestWritesNothing | handler_upload_thumbnail.go:20-80 | a request rejected by the request checks or the jpeg/png allow-list only responds, and closes the upload if it was opened |
| UploadThumbnail.OwnerMismatchIsRejected | handler_upload_thumbnail.go:50-54 | a user who does not own the record gets 401, and nothing is written |
| UploadThumbnail.DisallowedTypeRejected | handler_upload_thumbnail.go:77-80 | any media type other than `image/jpeg` or `image/png` gets 400, and no file is written |
| UploadThumbnail.UpdateOnlyAfterWrite | handler_upload_thumbnail.go:100-122 | the record is updated, with the new URL, only right after the file was created and written; the created file is always closed |
| UploadThumbnail.StoredRecordAnswered | handler_upload_thumbnail.go:114-125 | a 200 is written only when every step succeeded, with the updated record as its body |
| UploadThumbnail.UploadClosedLast | handler_upload_thumbnail.go:64-69 | the uploaded part is closed exactly when it was opened, and it is the last effect |
| UploadThumbnail.FileAndUrlShareAssetPath | handler_upload_thumbnail.go:86-116 | the disk path and the stored URL are built from the same asset path, and no other field of the record changes |
| UploadThumbnail.ThumbnailFileServedAtUrl | handler_upload_thumbnail.go:86-116 | the file is written at `<root>/<name><ext>` and the URL ends in `/assets/<name><ext>` |

## Left out

- Byte contents are left out: the HTTP request body, the multipart parsing
  and the bytes copied between files are not modelled. A file effect records
  only the path it touches, and the S3 upload records the path of the file
  whose handle is its body.
- Strings are sequences of characters, while Go strings are bytes. Every
  separator, prefix, suffix and generated character in the model is ASCII,
  so lengths such as the 11 characters `.processing` adds are also byte
  counts.
- The video record's timestamps are left out: the database package is not
  part of this model, and neither handler reads or sets them.
- The external calls are inputs, since their code is not part of this model:
  - JWT parsing and validation; the user ID the validator returns with an
    error is an input too.
  - The database.
  - `mime.ParseMediaType` and `mime.ExtensionsByType` (the extension table is
    a function parameter).
  - `os.CreateTemp`, whose chosen name is an input.
  - `crypto/rand`.
  - The ffprobe and ffmpeg subprocesses and the JSON decoding of ffprobe's
    output (its outcome is an input).
  - The S3 client and the presigner (the presigner is a function parameter
    of the configuration).
- respondWithError and respondWithJSON are not part of this model. A
  response is its status and its message or body, with the message wording
  of each handler.
- The thumbnail handler ignores the error from `rand.Read` at
  `handler_upload_thumbnail.go:84`. The model takes the 32 bytes as given
  and has no failure case there.
- A panic is an effect in the trace. The model does not capture how
  `net/http` recovers from it or drops the connection.
- `ensureAssetsDir` is not modelled: it is setup, not part of handling an
  upload.
- getVideoURL is not modelled: it is commented out at `assets.go:39-41`.
- `fmt.Println` at `handler_upload_thumbnail.go:41` is not modelled.
- The 1 GB and 10 MB multipart memory caps are not modelled; they only
  affect whether parsing succeeds, which is an input.
- Concurrency between requests is not modelled.
- The computed values (asset path, ratio, output path, key, stored and
  signed record) are computed up front as `Derive`. They are meaningful only
  for runs that reach the step that computes them.
- VideoAspectRatio.AspectRatio: computes the ratio in exact rational
  arithmetic rather than `float64`. It can differ from the Go code for
  dimensions whose ratio lies within rounding error of a window edge. A zero
  height gives `other`, as Go's infinite or NaN ratio does.
- UploadVideo.InvalidTokenStillUploads: the model does not fix the user ID a
  failed validation returns. Ownership is checked against whatever ID the
  validator returned, so the lemma assumes that ID owns the record.
