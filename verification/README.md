# go-gitlab-irc: notification routing and rendering, in Dafny

go-gitlab-irc is a bot that receives GitLab webhooks over HTTP and relays them
to IRC. This project models its core, all of it in `main.go`:

- the **channel resolver**. `sendMessage` and `contains` pick the channels for
  a `(namespace, project)` pair from the `Mapping`: the explicit entry for
  `namespace/project` first, then the group entry for the namespace, then the
  default channel. `getAllChannelNames` lists every channel the bot joins.
- the **event handler**. A switch on the `X-Gitlab-Event` header selects one
  of five record kinds: pipeline, job, merge request, issue or push. The handler
  then normalises the record: it drops noisy statuses, maps status and action
  keywords through the `JobStatus` and `HookActions` tables, cuts hashes to 7
  characters and takes the branch from the ref. It also recognises the
  40-zero null commit, keeps at most three commit lines and reads a job's
  namespace from its git URL. The result is the ordered list of
  `sendMessage(message, project, namespace)` calls.
- the **renderers**. The ten fixed templates are written as concatenations of
  their literal segments, mIRC colour codes (`\x03NN … \x03`) included, and
  their fields.

Modules:

| file | module | contents |
|---|---|---|
| text.dfy | `Text` | `strings.Split`/`Join`, prefix-before-separator, decimal rendering of ints and its inverse |
| events.dfy | `Events` | the decoded records (`PushEvent`, `IssueEvent`, …, `CommitContext`) and the `Event` variant |
| templates.dfy | `Templates` | `NullCommit`, the two lookup tables, colour codes, the ten templates |
| routing.dfy | `Routing` | `Mapping`, `contains`, `sendMessage`, `getAllChannelNames` |
| dispatch.dfy | `Handler` | the header switch and the per-event handling, as functions returning an `Outcome` |
| dispatch_lemmas.dfy | `HandlerLemmas` | the properties of the handler |
| delivery.dfy | `Delivery` | the handler's lines fed through `sendMessage`, line by line |

**Panics.** Several expressions in the handler can go out of range: `s[0:7]` on
a hash shorter than 7 characters, `strings.Split(ref, "/")[2]` on a ref with
fewer than three pieces, `strings.Split(url, ":")[1]` on a URL without a
colon, and `Commits[0:3]`. Each is a Go panic. net/http recovers it, and the
request ends after whatever lines were already handed to `sendMessage`. The
model does not forbid these inputs with preconditions. An `Outcome` records
the lines emitted and whether the handler stopped short.
`HandlerLemmas.PushPanicsIff` gives the exact condition for a push.

**External behaviour as parameters.** JSON decoding is a `Decoders<B>` record
of functions from an uninterpreted body type. html/template's escaping of every
interpolated value and `html.UnescapeString` on commit messages are the two
functions of `TextFns`. Every contract holds for every choice of them.

Behaviour of the code worth knowing:

- The branch is only the third `/`-piece of the ref. `refs/heads/feature/x`
  is announced as `feature`, not `feature/x`.
- For a new branch, the branch-creation line comes before the summary line.
- A hash shorter than 7 characters is not passed through: the handler panics.
- An action missing from `HookActions` renders as the empty string, because a
  Go map read of a missing key returns the zero value.
- Pipelines are filtered twice. `pending` returns before the hash is cut.
  Any status other than `running`, `success` or `failed` is dropped after
  the hash is cut, so such a pipeline with a short hash panics.
- Decode failures are fatal to the process (`log.Fatal`), except for pushes.

## Model

| member | source | states |
|---|---|---|
| Routing.Contains | main.go:407-414 | true exactly when the entry is a key of the map, whatever order the keys are scanned in |
| Routing.ChooseChannels | main.go:417-430 | the explicit list for `namespace/project` when that key exists, even if the namespace also has a group entry; otherwise the group list when the namespace has one; otherwise exactly the default channel |
| Routing.SendMessage | main.go:416-436 | one delivery per chosen channel, in list order, each carrying the unchanged message |
| Routing.AllChannelNames | main.go:387-405 | the default channel comes first; the length is 1 plus the lengths of all group and explicit lists; the group portion holds exactly the group channels and the explicit portion exactly the explicit channels, counted with multiplicity (no deduplication), for any map iteration order |
| Routing.MappedChannelsMembership | main.go:387-405 | a channel is joined exactly when it is the default or appears in some group or explicit list |
| Routing.ResolvedChannelsAreJoined | main.go:387-430 | every channel a line can be resolved to is one the bot joins at startup |
| Text.Split | main.go:310 | `strings.Split` yields at least one piece; no piece holds the separator; more than one piece exactly when the separator occurs |
| Text.SplitThenJoin | main.go:310 | joining the pieces of a split restores the string |
| Text.JoinThenSplit | main.go:310 | splitting a join of separator-free pieces restores the pieces |
| Text.TakeUntil | main.go:266 | the longest prefix free of the separator, ended by the separator or the end of the string |
| Text.FirstPieceIsTakeUntil | main.go:266 | the first piece of a split is the text before the first separator |
| Text.IntToDecimal | main.go:373 | the `%d` rendering is non-empty, starts with '-' exactly for negatives, and is otherwise all digits |
| Text.IntDecimalRoundTrip | main.go:373 | every rendered integer reads back as itself |
| Templates.Lookup | main.go:235 | a Go map read, `JobStatus[...]` or `HookActions[...]`; what it yields on the two tables is stated by `Templates.TableReads` |
| Templates.TableReads | main.go:51-65 | reading `HookActions` gives a non-empty verb exactly for open, update, close, reopen and merge, and reading `JobStatus` a non-empty, colour-coded phrase exactly for its five statuses; any other key reads as the zero value "" |
| Templates.MoreCommitsLineReadsBack | main.go:373 | the "more" line is "and " + number + " more commits." and the number reads back as the count it was built from |
| Templates.PushCompareLine | main.go:40 | the compare template; its place and hashes are stated by `HandlerLemmas.ExistingBranchCompareLine`, its `[project] ` opening by `Templates.PushLinesOpenWithTag` |
| Templates.PushCommitLogLine | main.go:41 | the commit-log template; its place is stated by `HandlerLemmas.CreatedBranchComesFirst`, its opening by `Templates.PushLinesOpenWithTag` |
| Templates.BranchCreateLine | main.go:42 | the branch-create template; stated by `HandlerLemmas.CreatedBranchComesFirst` and `Templates.PushLinesOpenWithTag` |
| Templates.BranchDeleteLine | main.go:43 | the branch-delete template; stated by `HandlerLemmas.DeletedBranchSingleLine` and `Templates.PushLinesOpenWithTag` |
| Templates.CommitLine | main.go:44 | the commit template; its fields are stated by `Handler.ContextOf`, its use by `Handler.CommitLines` and `HandlerLemmas.PushLineLayout`, its opening by `Templates.CommitLineOpensWithId` |
| Templates.IssueLine | main.go:45 | the issue template; stated by `HandlerLemmas.IssueActionVerb` and `Templates.ChangeLinesOpenWithTag` |
| Templates.MergeLine | main.go:46 | the merge request template; stated by `HandlerLemmas.MergeActionVerb` and `Templates.ChangeLinesOpenWithTag` |
| Templates.PipelineCreateLine | main.go:47 | the running-pipeline template; stated by `HandlerLemmas.RunningPipelineLine` and `Templates.BuildLinesOpenWithTag` |
| Templates.PipelineCompleteLine | main.go:48 | the finished-pipeline template; stated by `HandlerLemmas.FinishedPipelineLine` and `Templates.BuildLinesOpenWithTag` |
| Templates.JobCompleteLine | main.go:49 | the job template; stated by `HandlerLemmas.FinishedJobLine` and `Templates.BuildLinesOpenWithTag` |
| Templates.MoreCommitsLine | main.go:373 | the `Sprintf` line; its shape and read-back are stated by `Templates.MoreCommitsLineReadsBack` |
| Templates.PushLinesOpenWithTag | main.go:40-43 | each of the four push templates opens with `[`, the project name in colour 12, and `] ` |
| Templates.CommitLineOpensWithId | main.go:44 | the commit template opens with the short id in colour 15 |
| Templates.ChangeLinesOpenWithTag | main.go:45-46 | the issue and merge request templates open with the project tag |
| Templates.BuildLinesOpenWithTag | main.go:47-49 | the pipeline templates open with the project tag, the job template with the repository tag |
| Handler.ShortId | main.go:231 | a shortened hash is the 7-character prefix of the full hash |
| Handler.ContextOf | main.go:353-360 | a commit's short id is the first 7 characters of its id; its added, modified and removed counts are the lengths of the three file lists |
| Handler.CommitLines | main.go:343-370 | one line per commit, in commit order, each the commit template on that commit; at a commit whose id is shorter than 7 characters the loop panics, after the lines of the commits before it |
| Handler.PushOutcome | main.go:302-377 | the push case; its panics are stated exactly by `HandlerLemmas.PushPanicsIff`, its lines by `HandlerLemmas.PushLineLayout` and the branch lemmas below |
| Handler.PushToBranch | main.go:312-377 | the push case after the ref is cut; stated by `HandlerLemmas.DeletedBranchSingleLine`, `HandlerLemmas.CreatedBranchComesFirst`, `HandlerLemmas.ExistingBranchCompareLine`, `HandlerLemmas.PushWithoutCommits` and `HandlerLemmas.PushReachesCommits` |
| Handler.PushSummaryLine | main.go:326-334 | the commit-log or compare summary; stated by `HandlerLemmas.CreatedBranchComesFirst` and `HandlerLemmas.ExistingBranchCompareLine` |
| Handler.PushCommits | main.go:338-375 | the commit loop and the "more" line; stated by `HandlerLemmas.PushCommitsKeepHead` and `HandlerLemmas.PushCommitsLayout` |
| Handler.IssueOutcome | main.go:288-300 | the issue case; stated by `HandlerLemmas.IssueActionVerb` |
| Handler.MergeOutcome | main.go:274-286 | the merge request case; stated by `HandlerLemmas.MergeActionVerb` |
| Handler.PipelineOutcome | main.go:216-246 | the pipeline case; stated by `HandlerLemmas.PipelineStatusFilter`, `HandlerLemmas.RunningPipelineLine` and `HandlerLemmas.FinishedPipelineLine` |
| Handler.JobOutcome | main.go:249-272 | the job case; stated by `HandlerLemmas.JobStatusFilter`, `HandlerLemmas.FinishedJobLine` and `HandlerLemmas.ScpStyleUrlNamespace` |
| Handler.Decode | main.go:214-381 | the header switch; stated by `HandlerLemmas.UnknownEventIsIgnored` and `HandlerLemmas.HeaderAliasesAgree` |
| Handler.Dispatch | main.go:214-381 | the per-kind handling; routing stated by `HandlerLemmas.LinesCarryEventIdentity` |
| Handler.Handle | main.go:214-381 | one request; stated by `HandlerLemmas.UnknownEventIsIgnored`, `HandlerLemmas.HeaderAliasesAgree` and `Delivery.Notify` |
| HandlerLemmas.UnknownEventIsIgnored | main.go:379-380 | a request whose header matches no case produces no line |
| HandlerLemmas.HeaderAliasesAgree | main.go:274-302 | "Merge Request Hook"/"Event", "Issue Hook"/"Event" and "Push Hook"/"Event" are handled identically |
| HandlerLemmas.PipelineStatusFilter | main.go:225-246 | at most one line; a line exactly when the status is running, success or failed and the hash can be cut; a panic exactly when a non-pending pipeline's hash is shorter than 7 |
| HandlerLemmas.RunningPipelineLine | main.go:230-238 | a running pipeline gives exactly one create-style line with the 7-character hash and the "is running" phrase |
| HandlerLemmas.FinishedPipelineLine | main.go:240-245 | a successful or failed pipeline gives exactly one complete-style line with the table's "has succeded"/"has failed" phrase |
| HandlerLemmas.UrlNamespaceAfterFirstColon | main.go:266 | the job namespace is the text after the first ':' of the URL up to the next ':' or '/' |
| HandlerLemmas.ScpStyleUrlNamespace | main.go:266 | for a URL `host:group/path` the job namespace is `group` |
| HandlerLemmas.JobStatusFilter | main.go:257-272 | at most one line; nothing unless the status is success or failed; a panic exactly when such a job's hash is short or its URL has no ':' |
| HandlerLemmas.FinishedJobLine | main.go:262-272 | a finished job gives exactly one line with the 7-character hash and the status phrase, routed by the repository name and the URL namespace |
| HandlerLemmas.IssueActionVerb | main.go:296-300 | an issue gives one line whose action is the table's verb, or "" for an action missing from the table |
| HandlerLemmas.MergeActionVerb | main.go:282-286 | a merge request gives one line whose action is the table's verb, or "" for an action missing from the table |
| HandlerLemmas.BranchIsThirdPiece | main.go:310 | the branch is exactly the third '/'-piece of the ref, not the rest of it |
| HandlerLemmas.NestedBranchIsCut | main.go:310 | `refs/heads/feature/x` gives the branch `feature` |
| HandlerLemmas.PushPanicsIff | main.go:310-370 | a push panics exactly when its ref has fewer than three pieces, or it carries commits and a compare hash is short, or more than three were pushed but fewer than three sent, or a shown commit id is short |
| HandlerLemmas.DeletedBranchSingleLine | main.go:312-316 | a push whose `after` is the null commit gives exactly one branch-delete line, whatever its commits |
| HandlerLemmas.CreatedBranchComesFirst | main.go:318-329 | a push whose `before` is the null commit starts with the branch-create line; when it carries commits the next line is the commit-log summary, whose link has no hashes to shorten |
| HandlerLemmas.ExistingBranchCompareLine | main.go:325-336 | a push to an existing branch starts with the compare line on both hashes cut to 7 characters, or panics with nothing sent when either hash is shorter |
| HandlerLemmas.PushWithoutCommits | main.go:317-325 | a push with no commits gives no summary, commit or "more" line: only the create line for a new branch |
| HandlerLemmas.PushReachesCommits | main.go:312-336 | a push to a live branch with commits and cuttable hashes sends the optional create line and one summary line, then continues to the commit lines |
| HandlerLemmas.PushCommitsKeepHead | main.go:336-375 | the lines sent before the commit loop stay first, whatever the loop does, including when it panics |
| HandlerLemmas.PushCommitsLayout | main.go:338-375 | after the lines already sent: one commit line per shown commit in order, then "and N-3 more commits." exactly when N > 3, with no panic when the shown ids are long enough |
| HandlerLemmas.PushLineLayout | main.go:325-375 | lines in order: optional create line, one summary, one line per commit (the first three when more than three were pushed), then "and N-3 more commits." exactly when N > 3 |
| HandlerLemmas.FiveCommitPush | main.go:325-375 | five pushed commits to an existing branch give the compare line on the cut hashes, one line for each of the first three commits in order, and "and 2 more commits." |
| HandlerLemmas.PushLinesCarryProject | main.go:302-377 | every line of a push is routed by the pushed project's name and namespace |
| HandlerLemmas.PushCommitsCarryProject | main.go:336-375 | the commit lines and the "more" line are routed by the pushed project, as are the lines before them |
| HandlerLemmas.LinesCarryEventIdentity | main.go:214-381 | every line is routed by its event's project, or for a job by the repository name and the URL namespace |
| Delivery.DeliveriesAppend | main.go:432-434 | delivering lines one after another is delivering their concatenation, so delivery order follows line order |
| Delivery.DeliveredOnlyToMappedChannels | main.go:387-436 | every message goes to a channel the mapping names |
| Delivery.SendLines | main.go:416-436 | sending lines one after another yields, in order, the broadcast of each line to its resolved channels |
| Delivery.Notify | main.go:214-381 | each line of a request is resolved and delivered in turn; the deliveries are the lines' broadcasts in handler order, all to joined channels |

## Left out

- IRC connection, TLS and CA loading, the `001`/`366` callbacks and the `Join` calls (main.go:438-502): network I/O. A `bot.Privmsg` call is a `Routing.Privmsg` record.
- HTTP listener and header lookup (main.go:119-123): a request is a header string and a body. A request without the header panics at `[0]` before anything is sent, which is the same as sending nothing.
- JSON decoding: the `Decoders` parameter. A decode failure ends the request with no line. The process exit caused by `log.Fatal` for every kind except push is process-level and is not modelled.
- YAML loading of the mapping file (main.go:460-470): the model receives a `Mapping` value.
- Template parsing at startup (main.go:69-117): the templates are constants and parse.
- Template execution errors (main.go:365-368): html/template does not fail on these records, so the renderers are total.
- html/template escaping and `html.UnescapeString`: uninterpreted `TextFns` functions.
- `Duration float64` (main.go:189, 207): a pre-rendered text field.
- Go map iteration order in `getAllChannelNames`: unspecified. The contracts state counts and multisets, not the order inside the group and explicit portions.
- Strings are sequences of characters. Go's `[0:7]` counts bytes, so the two agree for the ASCII hex hashes GitLab sends, not for arbitrary text.
- `Commits[0:3]` is checked against the slice's length. Go checks it against the capacity. With one or two decoded commits the runtime may instead slice into zero-valued padding and panic a few lines later, on the empty id.
- The `pending` and `created` entries of `JobStatus` are never read, because those statuses are filtered out earlier. They are kept in the table as written.
