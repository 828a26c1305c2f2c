/**
 * The `videos` table (convex/schema.ts). `heygenId` is required and carries no
 * uniqueness constraint; `status` is any string (the three lifecycle values
 * are a convention only); `url`, `thumbnailUrl` and `error` are optional and
 * independent of `status`; `createdAt` is a number set by the caller.
 */
module Schema {
  import opened Wrappers

  const Processing := "processing"
  const Completed := "completed"
  const Failed := "failed"

  datatype Video = Video(
    heygenId: string,
    status: string,
    url: Option<string>,
    thumbnailUrl: Option<string>,
    error: Option<string>,
    createdAt: int)

  /** One of the three values the code base writes; the schema does not enforce it. */
  predicate IsLifecycleStatus(status: string) {
    status == Processing || status == Completed || status == Failed
  }
}
