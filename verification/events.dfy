/**
 The decoded webhook records of main.go (the structs declared inside the
 handler), one datatype per record. Go's `int` fields are `int` here; the
 `float64` durations are kept as the text the template printer produces for
 them. Field names follow the Go structs, not the JSON keys.
 */
module Events {

  datatype Project = Project(name: string, namespace: string, webUrl: string)

  datatype Commit = Commit(
    id: string,
    message: string,
    added: seq<string>,
    modified: seq<string>,
    removed: seq<string>,
    author: string)

  /** `branch` holds the JSON `ref` as decoded (`refs/heads/main`); the
      dispatcher overwrites it with the branch name before rendering, as the
      handler does. */
  datatype PushEvent = PushEvent(
    userName: string,
    before: string,
    after: string,
    project: Project,
    commits: seq<Commit>,
    totalCommits: int,
    branch: string)

  datatype Issue = Issue(iid: int, action: string, title: string, description: string, url: string)

  datatype IssueEvent = IssueEvent(user: string, project: Project, issue: Issue)

  datatype Merge = Merge(iid: int, action: string, title: string, url: string)

  datatype MergeEvent = MergeEvent(user: string, project: Project, merge: Merge)

  datatype Pipeline = Pipeline(id: int, commit: string, status: string, duration: string)

  datatype PipelineEvent = PipelineEvent(pipeline: Pipeline, project: Project)

  datatype Repository = Repository(name: string, homepage: string, url: string)

  datatype JobEvent = JobEvent(
    id: int,
    name: string,
    status: string,
    duration: string,
    commit: string,
    repository: Repository)

  /** The per-commit record the commit template is executed on. */
  datatype CommitContext = CommitContext(
    shortId: string,
    message: string,
    author: string,
    addedFiles: int,
    modifiedFiles: int,
    removedFiles: int)

  /** The result of decoding a request body into one record type. */
  datatype Decoded<T> = Value(value: T) | DecodeError

  /** A request after the `X-Gitlab-Event` switch and decoding: one variant per
      handled case, plus the two ways a request ends without a record. */
  datatype Event =
    | PushHook(push: PushEvent)
    | IssueHook(issueEvent: IssueEvent)
    | MergeHook(mergeEvent: MergeEvent)
    | PipelineHook(pipelineEvent: PipelineEvent)
    | JobHook(jobEvent: JobEvent)
    | Malformed
    | Unrecognised(eventType: string)
}
