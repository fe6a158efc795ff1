/**
 * Asset naming, local asset paths and URLs, and the decoding of a stored
 * video reference into a signed URL (assets.go).
 */
module Assets {
  import opened Wrappers
  import Strings
  import FilePath
  import opened Database

  /**
   * What `mime.ExtensionsByType` returns for a media type: an error (the
   * type does not parse) or the list of extensions the host's table holds
   * for it, possibly empty. The table depends on the host, so callers pass
   * the lookup in.
   */
  datatype ExtensionLookup = LookupFailed | Extensions(list: seq<string>)

  datatype AssetError = UnsupportedMediaType

  /** The presigner is told the bucket, the key and the lifetime in minutes. */
  datatype PresignRequest = PresignRequest(bucket: string, key: string, ttlMinutes: nat)

  datatype SignError =
    | InvalidVideoURLFormat(stored: string)
    | PresignFailed

  /** Lifetime of a signed URL: 60 * time.Minute. */
  const PresignTtlMinutes: nat := 60

  const StoredReferenceSeparator := ','

  /**
   * The values of `apiConfig` the handlers read. The presigner stands for
   * `generatePresignedURL` over the S3 client, which is not part of this
   * model.
   */
  datatype ApiConfig = ApiConfig(
    assetsRoot: string,
    port: string,
    s3Bucket: string,
    presign: PresignRequest -> Result<string, SignError>
  )

  /**
   * `getAssetPath(randomString, mediaType)`: the random name followed by the
   * first extension listed for the media type; the empty string and an error
   * when the lookup fails or lists nothing.
   */
  function GetAssetPath(randomString: string, mediaType: string, extensionsByType: string -> ExtensionLookup): (r: Returned<string, AssetError>)
    ensures r.err.Some? <==> extensionsByType(mediaType).LookupFailed? || extensionsByType(mediaType).list == []
    ensures r.err.Some? ==> r.value == ""
    ensures r.err.None? ==> r.value == randomString + extensionsByType(mediaType).list[0]
  {
    var lookup := extensionsByType(mediaType);
    if lookup.LookupFailed? || |lookup.list| == 0 then Returned("", Some(UnsupportedMediaType))
    else Returned(randomString + lookup.list[0], None)
  }

  /** Different random names of one length never share an asset path. */
  lemma AssetPathsDistinct(r1: string, r2: string, mediaType: string, extensionsByType: string -> ExtensionLookup)
    requires |r1| == |r2| && r1 != r2
    requires GetAssetPath(r1, mediaType, extensionsByType).err.None?
    ensures GetAssetPath(r1, mediaType, extensionsByType).value != GetAssetPath(r2, mediaType, extensionsByType).value
  {
    var p1 := GetAssetPath(r1, mediaType, extensionsByType).value;
    var p2 := GetAssetPath(r2, mediaType, extensionsByType).value;
    assert p1[..|r1|] == r1 && p2[..|r2|] == r2;
  }

  /** `getAssetDiskPath(assetPath)`: `filepath.Join(cfg.assetsRoot, assetPath)`. */
  function GetAssetDiskPath(cfg: ApiConfig, assetPath: string): (p: string)
    ensures p == [] <==> cfg.assetsRoot == [] && assetPath == []
  {
    FilePath.Join(cfg.assetsRoot, assetPath)
  }

  /**
   * With an already clean assets directory and an asset path that is a
   * single file name, the disk path is that name directly inside the
   * directory.
   */
  lemma AssetDiskPathInRoot(cfg: ApiConfig, assetPath: string)
    requires cfg.assetsRoot != [] && FilePath.Clean(cfg.assetsRoot) == cfg.assetsRoot
    requires cfg.assetsRoot != "." && cfg.assetsRoot != "/"
    requires FilePath.IsPlainName(assetPath)
    ensures GetAssetDiskPath(cfg, assetPath) == cfg.assetsRoot + "/" + assetPath
  {
    FilePath.JoinCleanDirectory(cfg.assetsRoot, assetPath);
  }

  const AssetURLPrefix := "http://localhost:"
  const AssetURLPath := "/assets/"

  /** `getAssetURL(assetPath)`: the locally served URL of an asset. */
  function GetAssetURL(cfg: ApiConfig, assetPath: string): (url: string)
    ensures var n := |AssetURLPrefix| + |cfg.port| + |AssetURLPath|;
            |url| == n + |assetPath| && url[..n] == AssetURLPrefix + cfg.port + AssetURLPath && url[n..] == assetPath
  {
    AssetURLPrefix + cfg.port + AssetURLPath + assetPath
  }

  /** The asset path can be read back from the URL: no two assets share a URL. */
  lemma AssetURLInjective(cfg: ApiConfig, a1: string, a2: string)
    requires GetAssetURL(cfg, a1) == GetAssetURL(cfg, a2)
    ensures a1 == a2
  {
    // both paths are the suffix after the same prefix, by GetAssetURL's contract
  }

  /**
   * `dbVideoToSignedVideo(video)`. A record without a video reference is
   * returned as it is. Otherwise the stored string is split at every comma;
   * unless that gives exactly two parts (exactly one comma), the record is
   * returned unchanged with an error. The two parts are handed to the
   * presigner as bucket and key with a 60-minute lifetime; on success only
   * the video URL changes, to the signed URL, and on failure the zero record
   * is returned with the error.
   */
  function DbVideoToSignedVideo(cfg: ApiConfig, video: Video): (r: Returned<Video, SignError>)
    ensures video.videoURL.None? ==> r == Returned(video, None)
    ensures video.videoURL.Some? && Strings.Count(video.videoURL.value, StoredReferenceSeparator) != 1
            ==> r == Returned(video, Some(InvalidVideoURLFormat(video.videoURL.value)))
    ensures video.videoURL.Some? && Strings.Count(video.videoURL.value, StoredReferenceSeparator) == 1
            ==> var parts := Strings.Split(video.videoURL.value, StoredReferenceSeparator);
                var signed := cfg.presign(PresignRequest(parts[0], parts[1], PresignTtlMinutes));
                r == if signed.Success? then Returned(video.(videoURL := Some(signed.value)), None)
                     else Returned(ZeroVideo, Some(signed.error))
  {
    match video.videoURL
    case None => Returned(video, None)
    case Some(stored) =>
      var bucketKey := Strings.Split(stored, StoredReferenceSeparator);
      if |bucketKey| != 2 then Returned(video, Some(InvalidVideoURLFormat(stored)))
      else
        match cfg.presign(PresignRequest(bucketKey[0], bucketKey[1], PresignTtlMinutes))
        case Failure(e) => Returned(ZeroVideo, Some(e))
        case Success(url) => Returned(video.(videoURL := Some(url)), None)
  }

  /** The stored form of a video reference: `bucket + "," + key`. */
  function StoredVideoReference(bucket: string, key: string): (s: string)
    ensures |s| == |bucket| + 1 + |key|
    ensures s[..|bucket|] == bucket && s[|bucket|] == StoredReferenceSeparator && s[|bucket| + 1..] == key
  {
    bucket + [StoredReferenceSeparator] + key
  }

  /**
   * Round trip: when neither bucket nor key contains a comma, decoding the
   * stored reference hands exactly that bucket and key to the presigner,
   * with the 60-minute lifetime.
   */
  lemma StoredReferenceRoundTrip(cfg: ApiConfig, video: Video, bucket: string, key: string)
    requires StoredReferenceSeparator !in bucket && StoredReferenceSeparator !in key
    ensures var signed := cfg.presign(PresignRequest(bucket, key, PresignTtlMinutes));
            DbVideoToSignedVideo(cfg, video.(videoURL := Some(StoredVideoReference(bucket, key))))
            == if signed.Success? then Returned(video.(videoURL := Some(signed.value)), None)
               else Returned(ZeroVideo, Some(signed.error))
  {
    assert StoredVideoReference(bucket, key) == Strings.Join([bucket, key], StoredReferenceSeparator);
    Strings.SplitJoin([bucket, key], StoredReferenceSeparator);
  }

  /** A bucket holding a comma can never be decoded again: the stored reference is rejected. */
  lemma CommaInBucketRejected(cfg: ApiConfig, video: Video, bucket: string, key: string)
    requires StoredReferenceSeparator in bucket
    ensures var stored := StoredVideoReference(bucket, key);
            DbVideoToSignedVideo(cfg, video.(videoURL := Some(stored)))
            == Returned(video.(videoURL := Some(stored)), Some(InvalidVideoURLFormat(stored)))
  {
    var stored := StoredVideoReference(bucket, key);
    Strings.SplitAround(bucket, StoredReferenceSeparator, key);
    assert |Strings.Split(stored, StoredReferenceSeparator)| >= 3;
  }
}
