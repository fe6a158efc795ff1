/**
 * The stored video record as the handlers see it. The database package is
 * not part of this model; the record's timestamps are left out.
 */
module Database {
  import opened Wrappers

  /** An opaque identity (a UUID); 0 plays the role of the nil UUID. */
  type Id = nat

  const NilId: Id := 0

  datatype Video = Video(
    id: Id,
    userID: Id,
    title: string,
    description: string,
    thumbnailURL: Option<string>,  // *string: None is nil
    videoURL: Option<string>       // *string: None is nil; stores "bucket,key"
  )

  /** `database.Video{}`: the zero value. */
  const ZeroVideo := Video(NilId, NilId, "", "", None, None)
}
