/**
 What the handler promises, per event kind: which statuses are filtered out,
 which line each kept event produces, the layout of a push's lines, where
 a job's namespace comes from, and exactly which inputs make the handler panic.
 */
module HandlerLemmas {
  import opened Text
  import opened Events
  import opened Templates
  import opened Handler

  // ---------------------------------------------------------------------------
  // Header switch

  /** A request whose event header matches no case of the switch produces nothing. */
  lemma UnknownEventIsIgnored<B>(eventType: string, body: B, d: Decoders<B>, e: TextFns)
    requires eventType !in {"Pipeline Hook", "Job Hook", "Merge Request Hook", "Merge Request Event",
                            "Issue Hook", "Issue Event", "Push Hook", "Push Event"}
    ensures Handle(eventType, body, d, e) == Outcome([], false)
  {
  }

  /** The "Hook" and "Event" spellings of a header select the same case. */
  lemma HeaderAliasesAgree<B>(body: B, d: Decoders<B>, e: TextFns)
    ensures Handle("Merge Request Hook", body, d, e) == Handle("Merge Request Event", body, d, e)
    ensures Handle("Issue Hook", body, d, e) == Handle("Issue Event", body, d, e)
    ensures Handle("Push Hook", body, d, e) == Handle("Push Event", body, d, e)
  {
    assert Decode("Merge Request Hook", body, d) == Decode("Merge Request Event", body, d);
    assert Decode("Issue Hook", body, d) == Decode("Issue Event", body, d);
    assert Decode("Push Hook", body, d) == Decode("Push Event", body, d);
  }

  // ---------------------------------------------------------------------------
  // Pipelines

  /** Only "running", "success" and "failed" pipelines produce a line, and at
      most one; the handler panics exactly when a non-pending pipeline's
      commit hash is shorter than 7 characters. */
  lemma PipelineStatusFilter(p: PipelineEvent, e: TextFns)
    ensures var o := PipelineOutcome(p, e);
      && |o.emitted| <= 1
      && (|o.emitted| == 1 <==>
            p.pipeline.status in {"running", "success", "failed"} && |p.pipeline.commit| >= 7)
      && (o.panicked <==> p.pipeline.status != "pending" && |p.pipeline.commit| < 7)
  {
  }

  /** A running pipeline produces exactly one create-style line with the
      short hash and the "is running" phrase, routed by its project. */
  lemma RunningPipelineLine(p: PipelineEvent, e: TextFns)
    requires p.pipeline.status == "running" && |p.pipeline.commit| >= 7
    ensures PipelineOutcome(p, e) == Outcome([Emit(p.project, PipelineCreateLine(
      p.(pipeline := p.pipeline.(commit := p.pipeline.commit[..7], status := "is " + Color("07", "running"))), e))], false)
  {
  }

  /** A successful or failed pipeline produces exactly one complete-style
      line whose status is the table's phrase for it. */
  lemma FinishedPipelineLine(p: PipelineEvent, e: TextFns)
    requires p.pipeline.status == "success" || p.pipeline.status == "failed"
    requires |p.pipeline.commit| >= 7
    ensures var phrase := if p.pipeline.status == "success" then "has " + Color("03", "succeded")
                          else "has " + Color("04", "failed");
      PipelineOutcome(p, e) == Outcome([Emit(p.project, PipelineCompleteLine(
        p.(pipeline := p.pipeline.(commit := p.pipeline.commit[..7], status := phrase)), e))], false)
  {
  }

  // ---------------------------------------------------------------------------
  // Jobs

  /** The job namespace is the text after the first ':' of the URL, up to the
      next ':' or '/'. */
  lemma UrlNamespaceAfterFirstColon(url: string)
    requires ':' in url
    ensures var host := TakeUntil(url, ':');
      && |host| < |url|
      && UrlNamespace(url) == TakeUntil(TakeUntil(url[|host| + 1..], ':'), '/')
  {
    var host := TakeUntil(url, ':');
    var rest := url[|host| + 1..];
    assert url == host + ([':'] + rest);
    SplitPrefix(host, ':', [':'] + rest);
    assert ([':'] + rest)[1..] == rest;
    assert Split([':'] + rest, ':') == [""] + Split(rest, ':');
    assert Split(url, ':')[1] == Split(rest, ':')[0];
    FirstPieceIsTakeUntil(rest, ':');
    FirstPieceIsTakeUntil(TakeUntil(rest, ':'), '/');
  }

  /** On a GitLab SSH URL `host:group/path` the namespace is the group. */
  lemma ScpStyleUrlNamespace(host: string, group: string, path: string)
    requires ':' !in host && ':' !in group && '/' !in group
    ensures ':' in host + ":" + group + "/" + path
    ensures UrlNamespace(host + ":" + group + "/" + path) == group
  {
    var slashPath := ['/'] + path;
    var rest := group + slashPath;
    var url := host + ([':'] + rest);
    assert url == host + ":" + group + "/" + path;
    assert url[|host|] == ':';
    TakeUntilSkips(host, ':', [':'] + rest);
    assert TakeUntil(url, ':') == host;
    UrlNamespaceAfterFirstColon(url);
    assert url[|host| + 1..] == rest;
    TakeUntilSkips(group, ':', slashPath);
    var cut := TakeUntil(path, ':');
    assert TakeUntil(slashPath, ':') == ['/'] + cut;
    TakeUntilSkips(group, '/', ['/'] + cut);
    assert group + "" == group;
  }

  /** A job produces a line only when it succeeded or failed; it then emits
      exactly one line, routed by the repository name and the URL's namespace,
      unless its hash is short or its URL has no ':' (a panic). */
  lemma JobStatusFilter(j: JobEvent, e: TextFns)
    ensures var o := JobOutcome(j, e);
      && |o.emitted| <= 1
      && (j.status != "success" && j.status != "failed" ==> o == Outcome([], false))
      && (o.panicked <==>
            (j.status == "success" || j.status == "failed") && (|j.commit| < 7 || ':' !in j.repository.url))
  {
  }

  lemma FinishedJobLine(j: JobEvent, e: TextFns)
    requires j.status == "success" || j.status == "failed"
    requires |j.commit| >= 7 && ':' in j.repository.url
    ensures var phrase := if j.status == "success" then "has " + Color("03", "succeded")
                          else "has " + Color("04", "failed");
      JobOutcome(j, e) == Outcome([Emission(
        JobCompleteLine(j.(commit := j.commit[..7], status := phrase), e),
        j.repository.name,
        TakeUntil(TakeUntil(j.repository.url[|TakeUntil(j.repository.url, ':')| + 1..], ':'), '/'))], false)
  {
    UrlNamespaceAfterFirstColon(j.repository.url);
  }

  // ---------------------------------------------------------------------------
  // Issues and merge requests

  /** An issue produces one line whose action is the table's verb, or the
      empty string for an action the table lacks. */
  lemma IssueActionVerb(i: IssueEvent, e: TextFns)
    ensures var verb := if i.issue.action in HookActionTable then HookActionTable[i.issue.action] else "";
      IssueOutcome(i, e) == Outcome([Emit(i.project, IssueLine(i.(issue := i.issue.(action := verb)), e))], false)
    ensures i.issue.action == "close" ==>
      IssueOutcome(i, e).emitted[0].message == IssueLine(i.(issue := i.issue.(action := "closed")), e)
    ensures i.issue.action !in {"open", "update", "close", "reopen", "merge"} ==>
      IssueOutcome(i, e).emitted[0].message == IssueLine(i.(issue := i.issue.(action := "")), e)
  {
  }

  /** A merge request produces one line with the same action mapping. */
  lemma MergeActionVerb(m: MergeEvent, e: TextFns)
    ensures var verb := if m.merge.action in HookActionTable then HookActionTable[m.merge.action] else "";
      MergeOutcome(m, e) == Outcome([Emit(m.project, MergeLine(m.(merge := m.merge.(action := verb)), e))], false)
    ensures m.merge.action == "merge" ==>
      MergeOutcome(m, e).emitted[0].message == MergeLine(m.(merge := m.merge.(action := "merged")), e)
    ensures m.merge.action !in {"open", "update", "close", "reopen", "merge"} ==>
      MergeOutcome(m, e).emitted[0].message == MergeLine(m.(merge := m.merge.(action := "")), e)
  {
  }

  // ---------------------------------------------------------------------------
  // Pushes

  /** The branch is exactly the third '/'-piece of the ref, not the rest of it. */
  lemma BranchIsThirdPiece(parts: seq<string>)
    requires |parts| >= 3
    requires forall i :: 0 <= i < |parts| ==> '/' !in parts[i]
    ensures |Split(Join(parts, '/'), '/')| >= 3
    ensures BranchOf(Join(parts, '/')) == parts[2]
  {
    JoinThenSplit(parts, '/');
  }

  /** `refs/heads/feature/x` is announced as branch `feature`. */
  lemma NestedBranchIsCut()
    ensures |Split("refs/heads/feature/x", '/')| >= 3
    ensures BranchOf("refs/heads/feature/x") == "feature"
  {
    var parts := ["refs", "heads", "feature", "x"];
    assert Join(parts, '/') == "refs/heads/feature/x";
    BranchIsThirdPiece(parts);
  }

  /** The pushes the handler gets through without a panic. */
  predicate PushPanicFree(p: PushEvent) {
    && |Split(p.branch, '/')| >= 3
    && (p.after != NullCommit && p.totalCommits > 0 ==>
          && (p.before != NullCommit ==> |p.before| >= 7 && |p.after| >= 7)
          && (p.totalCommits > 3 ==> |p.commits| >= 3)
          && forall i :: 0 <= i < |Shown(p)| ==> |Shown(p)[i].id| >= 7)
  }

  /** A push panics exactly when it is not panic-free: a ref with fewer than
      three pieces, a short hash on the compare path, fewer than three commits
      when more than three were pushed, or a short id among the shown commits. */
  lemma PushPanicsIff(p: PushEvent, e: TextFns)
    ensures PushOutcome(p, e).panicked <==> !PushPanicFree(p)
  {
    if |Split(p.branch, '/')| >= 3 {
      var q := p.(branch := BranchOf(p.branch));
      assert Shown(q) == Shown(p);
      if p.after != NullCommit && p.totalCommits > 0 && !(p.before != NullCommit && (|p.before| < 7 || |p.after| < 7))
         && !(p.totalCommits > 3 && |p.commits| < 3) {
        var lines := CommitLines(q.project, Shown(q), e);
        if !lines.panicked {
          assert forall i :: 0 <= i < |Shown(p)| ==> |Shown(p)[i].id| >= 7;
        }
      }
    }
  }

  /** A push whose `after` is the null commit is a branch deletion: one line
      and nothing else, whatever its commits. */
  lemma DeletedBranchSingleLine(p: PushEvent, e: TextFns)
    requires |Split(p.branch, '/')| >= 3
    requires p.after == NullCommit
    ensures PushOutcome(p, e) ==
      Outcome([Emit(p.project, BranchDeleteLine(p.(branch := BranchOf(p.branch)), e))], false)
  {
  }

  /** The lines before the commit lines are sent first, whatever follows. */
  lemma PushCommitsKeepHead(q: PushEvent, head: seq<Emission>, e: TextFns)
    ensures |PushCommits(q, head, e).emitted| >= |head|
    ensures PushCommits(q, head, e).emitted[..|head|] == head
  {
    var o := PushCommits(q, head, e);
    if !(q.totalCommits > 3 && |q.commits| < 3) {
      var lines := CommitLines(q.project, Shown(q), e);
      var more := if q.totalCommits > 3 then [Emit(q.project, MoreCommitsLine(q.totalCommits - 3))] else [];
      assert (head + lines.emitted + more)[..|head|] == head;
      assert (head + lines.emitted)[..|head|] == head;
    }
  }

  /** A push creating a branch announces the branch first; when it carries
      commits, the next line links to the commit log of the full branch. */
  lemma CreatedBranchComesFirst(p: PushEvent, e: TextFns)
    requires |Split(p.branch, '/')| >= 3
    requires p.before == NullCommit && p.after != NullCommit
    ensures var o := PushOutcome(p, e);
      var q := p.(branch := BranchOf(p.branch));
      && |o.emitted| >= 1
      && o.emitted[0] == Emit(p.project, BranchCreateLine(q, e))
      && (p.totalCommits > 0 ==> |o.emitted| >= 2 && o.emitted[1] == Emit(p.project, PushCommitLogLine(q, e)))
  {
    var q := p.(branch := BranchOf(p.branch));
    assert PushOutcome(p, e) == PushToBranch(q, e);
    var created := [Emit(q.project, BranchCreateLine(q, e))];
    if q.totalCommits > 0 {
      var head := created + [Emit(q.project, PushSummaryLine(q, e))];
      assert PushToBranch(q, e) == PushCommits(q, head, e);
      PushCommitsKeepHead(q, head, e);
      var o := PushCommits(q, head, e);
      assert o.emitted[0] == o.emitted[..|head|][0];
      assert o.emitted[1] == o.emitted[..|head|][1];
    }
  }

  /** A push to an existing branch links to the compare view of the two
      hashes cut to 7 characters, and panics with nothing sent when either
      hash is shorter. */
  lemma ExistingBranchCompareLine(p: PushEvent, e: TextFns)
    requires |Split(p.branch, '/')| >= 3
    requires p.before != NullCommit && p.after != NullCommit && p.totalCommits > 0
    ensures var o := PushOutcome(p, e);
      && ((|p.before| < 7 || |p.after| < 7) ==> o == Outcome([], true))
      && ((|p.before| >= 7 && |p.after| >= 7) ==>
            |o.emitted| >= 1
            && o.emitted[0] == Emit(p.project, PushCompareLine(
                 p.(branch := BranchOf(p.branch), before := p.before[..7], after := p.after[..7]), e)))
  {
  }

  /** A push without commits sends no summary, commit or "more" line: only
      the branch-creation line when the branch is new. */
  lemma PushWithoutCommits(p: PushEvent, e: TextFns)
    requires |Split(p.branch, '/')| >= 3
    requires p.after != NullCommit && p.totalCommits <= 0
    ensures var o := PushOutcome(p, e);
      && !o.panicked
      && |o.emitted| == (if p.before == NullCommit then 1 else 0)
      && (p.before == NullCommit ==>
            o.emitted[0] == Emit(p.project, BranchCreateLine(p.(branch := BranchOf(p.branch)), e)))
  {
  }

  /** The lines sent before the commit lines of a push that carries commits:
      the optional branch-creation line, then the summary line. */
  function PushHead(q: PushEvent, e: TextFns): seq<Emission>
    requires q.before != NullCommit ==> |q.before| >= 7 && |q.after| >= 7
  {
    (if q.before == NullCommit then [Emit(q.project, BranchCreateLine(q, e))] else [])
    + [Emit(q.project, PushSummaryLine(q, e))]
  }

  /** A push to a live branch with commits and cuttable hashes reaches the commit lines. */
  lemma PushReachesCommits(p: PushEvent, e: TextFns)
    requires |Split(p.branch, '/')| >= 3
    requires p.after != NullCommit && p.totalCommits > 0
    requires p.before != NullCommit ==> |p.before| >= 7 && |p.after| >= 7
    ensures var q := p.(branch := BranchOf(p.branch));
      && |PushHead(q, e)| == (if p.before == NullCommit then 2 else 1)
      && PushOutcome(p, e) == PushCommits(q, PushHead(q, e), e)
  {
  }

  /** `o` holds `head` lines, then one commit line per shown commit, then
      the "more" line exactly when more than three commits were pushed. */
  predicate LaidOut(o: Outcome, head: nat, project: Project, shown: seq<Commit>, total: int, e: TextFns) {
    && !o.panicked
    && |o.emitted| == head + |shown| + (if total > 3 then 1 else 0)
    && (forall i :: 0 <= i < |shown| ==>
          |shown[i].id| >= 7 && o.emitted[head + i] == Emit(project, CommitLine(ContextOf(shown[i], e), e)))
    && (total > 3 ==> o.emitted[|o.emitted| - 1] == Emit(project, MoreCommitsLine(total - 3)))
  }

  /** After the head lines: one line per shown commit, then the "more" line
      exactly when more than three commits were pushed. */
  lemma PushCommitsLayout(q: PushEvent, head: seq<Emission>, e: TextFns)
    requires q.totalCommits > 3 ==> |q.commits| >= 3
    requires forall i :: 0 <= i < |Shown(q)| ==> |Shown(q)[i].id| >= 7
    ensures PushCommits(q, head, e).emitted[..|head|] == head
    ensures LaidOut(PushCommits(q, head, e), |head|, q.project, Shown(q), q.totalCommits, e)
  {
    var lines := CommitLines(q.project, Shown(q), e);
    var more := if q.totalCommits > 3 then [Emit(q.project, MoreCommitsLine(q.totalCommits - 3))] else [];
    assert PushCommits(q, head, e) == Outcome(head + lines.emitted + more, false);
    assert (head + lines.emitted + more)[..|head|] == head;
  }

  /** The lines of a panic-free push with commits, in order: the optional
      branch-creation line, one summary line, one line per shown commit
      (the first three when more than three were pushed), and the line
      "and N more commits." exactly when more than three were pushed. */
  lemma PushLineLayout(p: PushEvent, e: TextFns)
    requires PushPanicFree(p)
    requires p.after != NullCommit && p.totalCommits > 0
    ensures |Shown(p)| == (if p.totalCommits > 3 then 3 else |p.commits|)
    ensures LaidOut(PushOutcome(p, e), (if p.before == NullCommit then 2 else 1), p.project, Shown(p), p.totalCommits, e)
  {
    var q := p.(branch := BranchOf(p.branch));
    assert Shown(q) == Shown(p);
    PushReachesCommits(p, e);
    PushCommitsLayout(q, PushHead(q, e), e);
  }

  /** Five pushed commits: a summary, three commit lines and "and 2 more commits.". */
  lemma FiveCommitPush(p: PushEvent, e: TextFns)
    requires PushPanicFree(p)
    requires p.before != NullCommit && p.after != NullCommit
    requires p.totalCommits == 5
    ensures |PushOutcome(p, e).emitted| == 5
    ensures PushOutcome(p, e).emitted[0] == Emit(p.project, PushCompareLine(
      p.(branch := BranchOf(p.branch), before := p.before[..7], after := p.after[..7]), e))
    ensures LaidOut(PushOutcome(p, e), 1, p.project, p.commits[..3], 5, e)
    ensures PushOutcome(p, e).emitted[4].message == "and 2 more commits."
  {
    PushLineLayout(p, e);
    ExistingBranchCompareLine(p, e);
    var o := PushOutcome(p, e);
    assert Shown(p) == p.commits[..3];
    assert LaidOut(o, 1, p.project, Shown(p), 5, e);
    assert |o.emitted| == 5;
    assert o.emitted[4] == Emit(p.project, MoreCommitsLine(2));
    MoreCommitsLineForTwo();
  }

  /** The "more" line for two hidden commits, spelled out. */
  lemma MoreCommitsLineForTwo()
    ensures MoreCommitsLine(2) == "and 2 more commits."
  {
    assert IntToDecimal(2) == "2";
  }

  // ---------------------------------------------------------------------------
  // Routing identity

  /** Every line in `ems` is routed by `project`. */
  predicate RoutedBy(ems: seq<Emission>, project: Project) {
    forall em :: em in ems ==> em.projectName == project.name && em.namespace == project.namespace
  }

  /** The commit lines and the "more" line are routed by the pushed project. */
  lemma PushCommitsCarryProject(q: PushEvent, head: seq<Emission>, e: TextFns)
    requires RoutedBy(head, q.project)
    ensures RoutedBy(PushCommits(q, head, e).emitted, q.project)
  {
    if !(q.totalCommits > 3 && |q.commits| < 3) {
      var lines := CommitLines(q.project, Shown(q), e);
      forall em | em in lines.emitted
        ensures em.projectName == q.project.name && em.namespace == q.project.namespace
      {
        var i :| 0 <= i < |lines.emitted| && lines.emitted[i] == em;
      }
    }
  }

  /** Every line of a push is routed by the pushed project. */
  lemma PushLinesCarryProject(p: PushEvent, e: TextFns)
    ensures forall em :: em in PushOutcome(p, e).emitted ==>
      em.projectName == p.project.name && em.namespace == p.project.namespace
  {
    if |Split(p.branch, '/')| >= 3 {
      var q := p.(branch := BranchOf(p.branch));
      assert PushOutcome(p, e) == PushToBranch(q, e);
      if q.after != NullCommit && q.totalCommits > 0 && !(q.before != NullCommit && (|q.before| < 7 || |q.after| < 7)) {
        var created := if q.before == NullCommit then [Emit(q.project, BranchCreateLine(q, e))] else [];
        var head := created + [Emit(q.project, PushSummaryLine(q, e))];
        assert PushToBranch(q, e) == PushCommits(q, head, e);
        PushCommitsCarryProject(q, head, e);
      }
    }
  }

  /** Every line of an event is routed by its project's name and namespace,
      except a job's, which is routed by the repository name and the URL's
      namespace. */
  lemma LinesCarryEventIdentity(ev: Event, e: TextFns)
    ensures forall em :: em in Handler.Dispatch(ev, e).emitted ==>
      match ev
      case PushHook(p) => em.projectName == p.project.name && em.namespace == p.project.namespace
      case IssueHook(i) => em.projectName == i.project.name && em.namespace == i.project.namespace
      case MergeHook(m) => em.projectName == m.project.name && em.namespace == m.project.namespace
      case PipelineHook(p) => em.projectName == p.project.name && em.namespace == p.project.namespace
      case JobHook(j) => ':' in j.repository.url && em.projectName == j.repository.name
                           && em.namespace == UrlNamespace(j.repository.url)
      case _ => false
  {
    if ev.PushHook? {
      PushLinesCarryProject(ev.push, e);
    }
  }
}
