/**
 The webhook handler's body (main.go:119-381): the switch on the
 `X-Gitlab-Event` header, the per-event normalisation, and the ordered list of
 `sendMessage` calls it makes.

 A slice or index out of range in the handler (`s[0:7]` on a short hash,
 `strings.Split(...)[k]` with too few pieces, `Commits[0:3]`) is a Go panic;
 net/http recovers it and the request ends. The lines already handed to
 sendMessage have been sent by then, so an `Outcome` records those lines and
 whether the handler stopped short.
 */
module Handler {
  import opened Text
  import opened Events
  import opened Templates

  /** One `sendMessage(message, projectName, namespace, ...)` call. */
  datatype Emission = Emission(message: string, projectName: string, namespace: string)

  datatype Outcome = Outcome(emitted: seq<Emission>, panicked: bool)

  /** The JSON decoders, one per record type, over an uninterpreted body type. */
  datatype Decoders<!B> = Decoders(
    push: B -> Decoded<PushEvent>,
    issue: B -> Decoded<IssueEvent>,
    merge: B -> Decoded<MergeEvent>,
    pipeline: B -> Decoded<PipelineEvent>,
    job: B -> Decoded<JobEvent>)

  /** A line about a project, routed by the project's name and namespace. */
  function Emit(p: Project, text: string): Emission {
    Emission(text, p.name, p.namespace)
  }

  /** `s[0:7]`: the 7-character prefix of a hash. */
  function ShortId(s: string): (r: string)
    requires |s| >= 7
    ensures |r| == 7 && s == r + s[7..]
  {
    s[..7]
  }

  /** The branch name the handler uses: the third `/`-separated piece of the ref. */
  function BranchOf(ref: string): string
    requires |Split(ref, '/')| >= 3
  {
    Split(ref, '/')[2]
  }

  /** The namespace the job handler reads from the repository's git URL:
      the first `/`-piece of the second `:`-piece. */
  function UrlNamespace(url: string): string
    requires ':' in url
  {
    Split(Split(url, ':')[1], '/')[0]
  }

  /** The `CommitContext` built for one commit (main.go:353-360). */
  function ContextOf(c: Commit, e: TextFns): (ctx: CommitContext)
    requires |c.id| >= 7
    ensures ctx.shortId == c.id[..7]
    ensures ctx.addedFiles == |c.added| && ctx.modifiedFiles == |c.modified| && ctx.removedFiles == |c.removed|
  {
    CommitContext(ShortId(c.id), e.unescape(c.message), c.author, |c.added|, |c.modified|, |c.removed|)
  }

  /** The line for one commit, routed by the pushed project. */
  function CommitEmission(p: Project, c: Commit, e: TextFns): Emission
    requires |c.id| >= 7
  {
    Emit(p, CommitLine(ContextOf(c, e), e))
  }

  /** The commit loop (main.go:343-370): one line per commit in order; the
      loop panics at the first commit whose id is shorter than 7 characters,
      after the lines of the commits before it. */
  function CommitLines(p: Project, commits: seq<Commit>, e: TextFns): (o: Outcome)
    ensures |o.emitted| <= |commits|
    ensures forall i :: 0 <= i < |o.emitted| ==>
      |commits[i].id| >= 7 && o.emitted[i] == CommitEmission(p, commits[i], e)
    ensures !o.panicked ==> |o.emitted| == |commits|
    ensures o.panicked ==> |o.emitted| < |commits| && |commits[|o.emitted|].id| < 7
    decreases |commits|
  {
    if |commits| == 0 then Outcome([], false)
    else if |commits[0].id| < 7 then Outcome([], true)
    else
      var rest := CommitLines(p, commits[1..], e);
      var lines := [CommitEmission(p, commits[0], e)] + rest.emitted;
      assert forall i :: 0 < i < |lines| ==> lines[i] == rest.emitted[i - 1];
      assert forall i :: 0 < i < |commits| ==> commits[i] == commits[1..][i - 1];
      Outcome(lines, rest.panicked)
  }

  /** The commits that get a line: the first three when more than three were
      pushed (and at least three were sent), all of them otherwise. */
  function Shown(p: PushEvent): seq<Commit> {
    if p.totalCommits > 3 && |p.commits| >= 3 then p.commits[..3] else p.commits
  }

  /** The push case (main.go:302-377): the ref is cut to its branch first. */
  function PushOutcome(p: PushEvent, e: TextFns): Outcome {
    var parts := Split(p.branch, '/');
    if |parts| < 3 then Outcome([], true)
    else PushToBranch(p.(branch := parts[2]), e)
  }

  /** The push case once `q.branch` holds the branch name (main.go:312-377). */
  function PushToBranch(q: PushEvent, e: TextFns): Outcome {
    if q.after == NullCommit then
      Outcome([Emit(q.project, BranchDeleteLine(q, e))], false)
    else
      var created := if q.before == NullCommit then [Emit(q.project, BranchCreateLine(q, e))] else [];
      if q.totalCommits <= 0 then Outcome(created, false)
      else if q.before != NullCommit && (|q.before| < 7 || |q.after| < 7) then Outcome([], true)
      else PushCommits(q, created + [Emit(q.project, PushSummaryLine(q, e))], e)
  }

  /** The summary line (main.go:327-334): a link to the commit log of a new
      branch, otherwise a link comparing the two hashes cut to 7 characters. */
  function PushSummaryLine(q: PushEvent, e: TextFns): string
    requires q.before != NullCommit ==> |q.before| >= 7 && |q.after| >= 7
  {
    if q.before == NullCommit then PushCommitLogLine(q, e)
    else PushCompareLine(q.(before := ShortId(q.before), after := ShortId(q.after)), e)
  }

  /** The commit lines and the "more" line after the lines `head` (main.go:338-375). */
  function PushCommits(q: PushEvent, head: seq<Emission>, e: TextFns): Outcome {
    if q.totalCommits > 3 && |q.commits| < 3 then Outcome(head, true)
    else
      var lines := CommitLines(q.project, Shown(q), e);
      if lines.panicked then Outcome(head + lines.emitted, true)
      else
        var more := if q.totalCommits > 3 then [Emit(q.project, MoreCommitsLine(q.totalCommits - 3))] else [];
        Outcome(head + lines.emitted + more, false)
  }

  /** The issue case (main.go:288-300). */
  function IssueOutcome(i: IssueEvent, e: TextFns): Outcome {
    var named := i.(issue := i.issue.(action := Lookup(HookActionTable, i.issue.action)));
    Outcome([Emit(i.project, IssueLine(named, e))], false)
  }

  /** The merge request case (main.go:274-286). */
  function MergeOutcome(m: MergeEvent, e: TextFns): Outcome {
    var named := m.(merge := m.merge.(action := Lookup(HookActionTable, m.merge.action)));
    Outcome([Emit(m.project, MergeLine(named, e))], false)
  }

  /** The pipeline case (main.go:216-246). */
  function PipelineOutcome(p: PipelineEvent, e: TextFns): Outcome {
    var status := p.pipeline.status;
    if status == "pending" then Outcome([], false)
    else if |p.pipeline.commit| < 7 then Outcome([], true)
    else
      var shown := p.(pipeline := p.pipeline.(commit := ShortId(p.pipeline.commit),
                                              status := Lookup(JobStatusTable, status)));
      if status == "running" then
        Outcome([Emit(p.project, PipelineCreateLine(shown, e))], false)
      else if status == "success" || status == "failed" then
        Outcome([Emit(p.project, PipelineCompleteLine(shown, e))], false)
      else Outcome([], false)
  }

  /** The job case (main.go:249-272): routed by the repository name and the
      namespace read from its git URL. */
  function JobOutcome(j: JobEvent, e: TextFns): Outcome {
    if j.status != "success" && j.status != "failed" then Outcome([], false)
    else if |j.commit| < 7 then Outcome([], true)
    else if ':' !in j.repository.url then Outcome([], true)
    else
      var namespace := UrlNamespace(j.repository.url);
      var shown := j.(commit := ShortId(j.commit), status := Lookup(JobStatusTable, j.status));
      Outcome([Emission(JobCompleteLine(shown, e), j.repository.name, namespace)], false)
  }

  /** The handler on an already decoded event. */
  function Dispatch(ev: Event, e: TextFns): Outcome {
    match ev
    case PushHook(p) => PushOutcome(p, e)
    case IssueHook(i) => IssueOutcome(i, e)
    case MergeHook(m) => MergeOutcome(m, e)
    case PipelineHook(p) => PipelineOutcome(p, e)
    case JobHook(j) => JobOutcome(j, e)
    case Malformed => Outcome([], false)
    case Unrecognised(_) => Outcome([], false)
  }

  /** Turns one record decode into an event. */
  function Wrap<T>(d: Decoded<T>, make: T -> Event): Event {
    match d
    case Value(v) => make(v)
    case DecodeError => Malformed
  }

  /** The switch on the event header (main.go:214-381) with its case labels. */
  function Decode<B>(eventType: string, body: B, d: Decoders<B>): Event {
    if eventType == "Pipeline Hook" then Wrap(d.pipeline(body), p => PipelineHook(p))
    else if eventType == "Job Hook" then Wrap(d.job(body), j => JobHook(j))
    else if eventType == "Merge Request Hook" || eventType == "Merge Request Event" then
      Wrap(d.merge(body), m => MergeHook(m))
    else if eventType == "Issue Hook" || eventType == "Issue Event" then
      Wrap(d.issue(body), i => IssueHook(i))
    else if eventType == "Push Hook" || eventType == "Push Event" then
      Wrap(d.push(body), p => PushHook(p))
    else Unrecognised(eventType)
  }

  /** One request: decode by the header, then dispatch. */
  function Handle<B>(eventType: string, body: B, d: Decoders<B>, e: TextFns): Outcome {
    Dispatch(Decode(eventType, body, d), e)
  }
}
