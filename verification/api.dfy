/**
  The records the remote service returns and accepts, as far as the session
  engine sees them. They are snapshots: the engine never edits one, it only
  replaces whole collections.
 */
module Api {
  import opened Errors

  /** A generation job. `status` is free text on the wire; the engine compares
      it with "running", "completed" and "queued". */
  datatype Job = Job(
    id: int,
    jobId: string,
    name: string,
    status: string,
    numScenes: int,
    progress: Option<int>,
    createdAt: string,
    completedAt: Option<string>)

  /** An uploaded asset. */
  datatype Asset = Asset(
    id: int,
    assetId: string,
    name: string,
    fileType: string,
    sizeBytes: int,
    thumbnailUrl: Option<string>,
    createdAt: string)

  /** The body of a job-creation request. */
  datatype CreateJobRequest = CreateJobRequest(
    name: string,
    numScenes: int,
    configYaml: Option<string>)
}
