/**
 The fixed message templates, status and action tables and the null-commit
 sentinel of main.go:40-67. Each template is written as the concatenation of
 its literal segments and its fields. mIRC colour codes are `\x03` followed by
 a two-digit colour, closed by a bare `\x03`.

 html/template escapes every value it interpolates, and the commit template
 is fed `html.UnescapeString` of the message. Both are library behaviour this
 model does not interpret, so they arrive as the two functions of `TextFns`.
 */
module Templates {
  import opened Text
  import opened Events

  datatype TextFns = TextFns(escape: string -> string, unescape: string -> string)

  /** The sentinel hash GitLab sends for a side of a push that does not exist. */
  const NullCommit: string := "0000000000000000000000000000000000000000"

  /** The mIRC colour control character. */
  const ColorChar: char := '\U{3}'

  /** Text wrapped in a colour code and its reset. */
  function Color(code: string, s: string): string {
    [ColorChar] + code + s + [ColorChar]
  }

  /** `JobStatus` (main.go:51-57), as a Go map read: a missing key reads as "". */
  const JobStatusTable: map<string, string> := map[
    "pending" := "is " + Color("15", "pending"),
    "created" := "was " + Color("15", "created"),
    "running" := "is " + Color("07", "running"),
    "failed" := "has " + Color("04", "failed"),
    "success" := "has " + Color("03", "succeded")
  ]

  /** `HookActions` (main.go:59-65). */
  const HookActionTable: map<string, string> := map[
    "open" := "opened",
    "update" := "updated",
    "close" := "closed",
    "reopen" := "reopened",
    "merge" := "merged"
  ]

  /** A Go map index `table[key]` on a `map[string]string`: a missing key
      reads as the zero value "". */
  function Lookup(table: map<string, string>, key: string): (r: string)
    ensures key in table ==> r == table[key]
    ensures key !in table ==> r == ""
  {
    if key in table then table[key] else ""
  }

  /** Reading either table yields a non-empty text exactly for its keywords,
      and every status phrase carries a colour code. */
  lemma TableReads(key: string)
    ensures Lookup(HookActionTable, key) != "" <==> key in {"open", "update", "close", "reopen", "merge"}
    ensures Lookup(JobStatusTable, key) != "" <==> key in {"pending", "created", "running", "failed", "success"}
    ensures key in JobStatusTable ==> ColorChar in Lookup(JobStatusTable, key)
  {
  }

  /** The `[name] ` prefix shared by the project templates. */
  function Tag(e: TextFns, name: string): string {
    "[" + Color("12", e.escape(name)) + "] "
  }

  /** pushCompareString (main.go:40). */
  function PushCompareLine(p: PushEvent, e: TextFns): string {
    Tag(e, p.project.name) + e.escape(p.userName) + " pushed " + e.escape(IntToDecimal(p.totalCommits))
    + " commits to " + Color("05", e.escape(p.branch)) + " " + e.escape(p.project.webUrl)
    + "/compare/" + e.escape(p.before) + "..." + e.escape(p.after)
  }

  /** pushCommitLogString (main.go:41). */
  function PushCommitLogLine(p: PushEvent, e: TextFns): string {
    Tag(e, p.project.name) + e.escape(p.userName) + " pushed " + e.escape(IntToDecimal(p.totalCommits))
    + " commits to " + Color("05", e.escape(p.branch)) + " " + e.escape(p.project.webUrl)
    + "/commits/" + e.escape(p.branch)
  }

  /** branchCreateString (main.go:42). */
  function BranchCreateLine(p: PushEvent, e: TextFns): string {
    Tag(e, p.project.name) + e.escape(p.userName) + " created the branch " + Color("05", e.escape(p.branch))
  }

  /** branchDeleteString (main.go:43). */
  function BranchDeleteLine(p: PushEvent, e: TextFns): string {
    Tag(e, p.project.name) + e.escape(p.userName) + " deleted the branch " + Color("05", e.escape(p.branch))
  }

  /** commitString (main.go:44); the modified count is marked with U+00B1. */
  function CommitLine(c: CommitContext, e: TextFns): string {
    Color("15", e.escape(c.shortId))
    + " (" + Color("03", "+" + e.escape(IntToDecimal(c.addedFiles)))
    + "|" + Color("08", "\U{B1}" + e.escape(IntToDecimal(c.modifiedFiles)))
    + "|" + Color("04", "-" + e.escape(IntToDecimal(c.removedFiles)))
    + ") " + Color("06", e.escape(c.author)) + ": " + e.escape(c.message)
  }

  /** issueString (main.go:45). */
  function IssueLine(i: IssueEvent, e: TextFns): string {
    Tag(e, i.project.name) + e.escape(i.user) + " " + e.escape(i.issue.action) + " issue "
    + Color("08", "#" + e.escape(IntToDecimal(i.issue.iid))) + ": " + e.escape(i.issue.title)
    + " " + e.escape(i.issue.url)
  }

  /** mergeString (main.go:46). */
  function MergeLine(m: MergeEvent, e: TextFns): string {
    Tag(e, m.project.name) + e.escape(m.user) + " " + e.escape(m.merge.action) + " merge request "
    + Color("08", "#" + e.escape(IntToDecimal(m.merge.iid))) + ": " + e.escape(m.merge.title)
    + " " + e.escape(m.merge.url)
  }

  /** pipelineCreateString (main.go:47). */
  function PipelineCreateLine(p: PipelineEvent, e: TextFns): string {
    Tag(e, p.project.name) + "Pipeline for commit " + e.escape(p.pipeline.commit) + " "
    + e.escape(p.pipeline.status) + " " + e.escape(p.project.webUrl) + "/pipelines/"
    + e.escape(IntToDecimal(p.pipeline.id))
  }

  /** pipelineCompleteString (main.go:48). */
  function PipelineCompleteLine(p: PipelineEvent, e: TextFns): string {
    Tag(e, p.project.name) + "Pipeline for commit " + e.escape(p.pipeline.commit) + " "
    + e.escape(p.pipeline.status) + " in " + e.escape(p.pipeline.duration) + " seconds "
    + e.escape(p.project.webUrl) + "/pipelines/" + e.escape(IntToDecimal(p.pipeline.id))
  }

  /** jobCompleteString (main.go:49). */
  function JobCompleteLine(j: JobEvent, e: TextFns): string {
    Tag(e, j.repository.name) + "Job " + Color("08", e.escape(j.name)) + " for commit "
    + e.escape(j.commit) + " " + e.escape(j.status) + " in " + e.escape(j.duration)
    + " seconds " + e.escape(j.repository.homepage) + "/-/jobs/" + e.escape(IntToDecimal(j.id))
  }

  /** The `fmt.Sprintf("and %d more commits.", n)` line (main.go:373); not a template, so not escaped. */
  function MoreCommitsLine(n: int): string {
    "and " + IntToDecimal(n) + " more commits."
  }

  /** Every push template opens with the project's tag. */
  lemma PushLinesOpenWithTag(push: PushEvent, e: TextFns)
    ensures Tag(e, push.project.name) <= PushCompareLine(push, e)
    ensures Tag(e, push.project.name) <= PushCommitLogLine(push, e)
    ensures Tag(e, push.project.name) <= BranchCreateLine(push, e)
    ensures Tag(e, push.project.name) <= BranchDeleteLine(push, e)
  {
  }

  /** The commit template opens with the short id in colour 15. */
  lemma CommitLineOpensWithId(c: CommitContext, e: TextFns)
    ensures Color("15", e.escape(c.shortId)) <= CommitLine(c, e)
  {
  }

  /** The issue and merge request templates open with the project's tag. */
  lemma ChangeLinesOpenWithTag(i: IssueEvent, m: MergeEvent, e: TextFns)
    ensures Tag(e, i.project.name) <= IssueLine(i, e)
    ensures Tag(e, m.project.name) <= MergeLine(m, e)
  {
  }

  /** The pipeline templates open with the project's tag, the job template
      with the repository's. */
  lemma BuildLinesOpenWithTag(p: PipelineEvent, j: JobEvent, e: TextFns)
    ensures Tag(e, p.project.name) <= PipelineCreateLine(p, e)
    ensures Tag(e, p.project.name) <= PipelineCompleteLine(p, e)
    ensures Tag(e, j.repository.name) <= JobCompleteLine(j, e)
  {
  }

  /** The count in the "more commits" line reads back as the number it was built from. */
  lemma MoreCommitsLineReadsBack(n: int)
    ensures var s := MoreCommitsLine(n);
      && |s| > 18
      && s[..4] == "and "
      && s[|s| - 14..] == " more commits."
      && ParseInt(s[4..|s| - 14]) == n
  {
    var s := MoreCommitsLine(n);
    var digits := IntToDecimal(n);
    assert s[4..|s| - 14] == digits;
    IntDecimalRoundTrip(n);
  }
}
