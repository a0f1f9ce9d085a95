# AIATHENA guardrails and action governance, in Dafny

AIATHENA is an autonomous agent that posts, comments, upvotes and follows on the
Moltbook social network. Its core is in `src/aiathena/agent.py`, and this project
models that core.

- **Content guardrails.** Four pattern lists classify text: secrets, manipulation,
  harmful content and self-reference. `validate_output_content` refuses outgoing text
  for the first reason that applies, in this order: secrets, harm, self-reference,
  too short (under 10 characters), too long (over 5000). `sanitize_content` redacts
  every secret pattern. `is_safe_to_engage` flags a post that carries manipulation,
  or a comment that carries manipulation and mentions the agent by name.
- **The action ledger and the governed tools.** `AgentDeps.action_history` is the
  list of records the tools and the loop append (`Ledger.AgentDeps`, a class with a
  `seq` field). Each tool refuses when its action already has its allowance of
  successes among the last N records:
  - post: 2 in 5;
  - comment: 3 in 5;
  - upvote: 5 in 10;
  - follow: 3 in 10.

  On top of that, the upvote tool refuses a post it already upvoted (by `post_id`),
  and the follow tool refuses an agent it already followed (by `handle`). Outgoing
  texts are validated, then sanitized. The calls to Moltbook are parameters: each tool
  receives the API's reply and returns the call it made (`sent`).
- **The run loop** (`run_agent`). A run is a finite sequence of cycles. On each cycle:
  1. The model's own tool calls run through the governed tools.
  2. The loop dispatches the final decision itself. It validates and sanitizes texts,
     but it applies no rate or duplicate checks.
  3. When the iteration budget is reached, the run builds a summary of the history.

  Running out of cycles stands for the keyboard interrupt. The Moltbook client is
  closed on every path.
- **What the model sees.** `add_context` builds the dynamic instructions: the time,
  the last five records, and a posting reminder. `get_hot_posts` shapes and flags the
  feed.

Properties proved:
- The tools preserve `Ledger.Governed`: every window bound holds at every prefix of
  the history, and no upvote target or follow handle repeats.
- The loop path breaks that invariant, and scenarios show where:
  - two identical upvotes;
  - four follows in ten records;
  - three posts in five records.
- A loop follow is stored under `agent`, so the follow tool's duplicate check, which
  reads `handle`, lets the same agent be followed again
  (`Scenarios.LoopFollowEscapesDuplicateCheck`). `Ledger.Governed` keys follows on
  `handle` as the tool does, so it does not see the double follow either: the history
  that run leaves is governed (`Scenarios.DoubleFollowStaysGoverned`).
- A reading of "1 post per 30 min" in the instructions has no counterpart in code. The
  only limit is the positional window (`Scenarios.OnePostLeavesRoom`,
  `Ledger.PositionalWindowForgets`).
- Sanitizing leaves validated text unchanged, leaves no secret match and no 64-digit hex
  run, and is idempotent on every text.
- The run summary partitions the history by outcome and by action kind.
- The iteration budget behaves exactly as `max_iterations and iteration >= max_iterations`
  does: 0 and `None` never stop the run, and a negative budget stops after one cycle.

The regular-expression engine is a parameter `re: Guardrails.Regex`: a search and a
substitution per pattern. `Guardrails.EngineLaws` states the laws the proofs rely on:
- a substitution changes nothing when there is no match;
- a substitution never introduces a hex run into text without one;
- substituting a secret pattern leaves no match of that pattern;
- substituting a secret pattern creates no match of another secret pattern.

The last two hold of `re.sub` with the marker `[REDACTED]`. The secret patterns have
no anchors, word boundaries or `.`, and none of their character classes holds `[` or
`]`, so no match can reach into the marker, and the marker matches none of them.

The pattern `[a-f0-9]{64}` is defined concretely (`HasHexRun`, `RedactHex`), so the
laws about it are proved rather than assumed.

The loop's wait branch appends nothing, so a run of waits ends with an empty history
(`Scenarios.WaitingRunRecordsNothing`).

## Model

| member | source | states |
|---|---|---|
| Guardrails.AnyMatch | src/aiathena/agent.py:310-315 | the early-return loop over a pattern list is true exactly when some pattern of the list matches |
| Guardrails.PatternOrderIrrelevant | src/aiathena/agent.py:310-315 | two lists holding the same patterns classify every text alike |
| Guardrails.ContainsSecrets | src/aiathena/agent.py:310-315 | true exactly when one of the eight secret patterns matches the text |
| Guardrails.ContainsManipulation | src/aiathena/agent.py:318-323 | true exactly when one of the seven manipulation patterns matches the text |
| Guardrails.ContainsHarmfulContent | src/aiathena/agent.py:326-331 | true exactly when one of the five harmful-content patterns matches the text |
| Guardrails.ContainsSelfReference | src/aiathena/agent.py:334-339 | true exactly when one of the three self-reference patterns matches the text |
| Guardrails.ValidateOutput | src/aiathena/agent.py:350-362 | safe iff no secret, no harm, no self-reference and 10 <= length <= 5000; each refusal reason holds iff its check is the first to fail, in source order |
| Guardrails.LongHexIsRefused | src/aiathena/agent.py:277 | any text holding 64 lower-case hex digits in a row is a secret, and validation refuses it for that reason |
| Guardrails.RedactHexLeavesNoRun | src/aiathena/agent.py:277 | substituting `[REDACTED]` for the 64-hex-digit pattern leaves no such run behind |
| Guardrails.RedactHexKeepsCleanText | src/aiathena/agent.py:277 | the hex substitution leaves text without a run unchanged |
| Guardrails.RedactHexFixedPoints | src/aiathena/agent.py:277 | the hex substitution fixes a text iff the text has no run, and applying it twice equals applying it once |
| Guardrails.HexPrefixCopied | src/aiathena/agent.py:277 | an all-hex prefix of the substituted text was copied unchanged from the input |
| Guardrails.HexRunAtHeadCopied | src/aiathena/agent.py:277 | a run at the head of the substituted text would already have been a run in the input |
| Guardrails.SubLaws | src/aiathena/agent.py:346 | under the engine laws, substitution without a match is the identity, and it introduces no hex run |
| Guardrails.RedactionKeepsCleanText | src/aiathena/agent.py:342-347 | redacting with patterns none of which match returns the text unchanged |
| Guardrails.RedactionRemovesHexRuns | src/aiathena/agent.py:342-347 | redacting with a list holding the hex pattern leaves no hex run |
| Guardrails.HasHexRun | src/aiathena/agent.py:277 | `re.search(r'[a-f0-9]{64}', s)`: some 64 consecutive characters are all lower-case hex digits |
| Guardrails.RedactHex | src/aiathena/agent.py:346 | `re.sub` of the hex pattern: a left-to-right scan replacing each run of 64 hex digits it reaches by `[REDACTED]` |
| Guardrails.Redaction | src/aiathena/agent.py:342-347 | the text after substituting the given patterns one after the other, first to last |
| Guardrails.Sanitized | src/aiathena/agent.py:342-347 | the redaction of all eight secret patterns, in list order |
| Guardrails.Sanitize | src/aiathena/agent.py:342-347 | the loop's result is the redaction of every secret pattern in order; text without a secret comes out unchanged; the result holds no secret match and no hex run |
| Guardrails.SanitizeAfterValidationIsIdentity | src/aiathena/agent.py:407-409 | text that passed validation is returned unchanged by the sanitizer applied after it |
| Guardrails.SecretSubLaws | src/aiathena/agent.py:346 | under the engine laws, substituting a secret pattern leaves no match of it and creates no match of another secret pattern |
| Guardrails.RedactionLeavesNoSecret | src/aiathena/agent.py:342-347 | after substituting a list of secret patterns in turn, none of them matches |
| Guardrails.SanitizeIdempotent | src/aiathena/agent.py:342-347 | for every text, the sanitized text holds no secret and no hex run, and sanitizing it again changes nothing |
| Guardrails.MentionsAgent | src/aiathena/agent.py:376 | `re.search(r'(?i)@?aiathena', s)`: the name occurs somewhere, ignoring ASCII case |
| Guardrails.SomeCommentTargetsAgent | src/aiathena/agent.py:372-377 | true iff some comment both carries manipulation and mentions "aiathena" (case-insensitive, optional @) |
| Guardrails.IsSafeToEngage | src/aiathena/agent.py:365-379 | the post reason iff the post manipulates; otherwise the comment reason iff a comment manipulates and names the agent; safe iff neither holds |
| Guardrails.UntargetedCommentsIgnored | src/aiathena/agent.py:372-377 | comments that never mention the agent do not change the verdict; no comments and an empty list are the same |
| Ledger.Window | src/aiathena/agent.py:391 | `history[-n:]`: the last min(n, length) records |
| Ledger.CountSuccesses | src/aiathena/agent.py:391 | the count of successful records of an action is at most the number of records |
| Ledger.CountSuccessesConcat | src/aiathena/agent.py:391 | the success count of a concatenation is the sum of the counts |
| Ledger.RateLimited | src/aiathena/agent.py:391-393 | a tool refuses when its window already holds its threshold of successes of its action |
| Ledger.Targeted | src/aiathena/agent.py:501-504 | the duplicate check: some record anywhere of the action carries the value under the key |
| Ledger.Governed | src/aiathena/agent.py:382-559 | every prefix of the history keeps each tool's window bound, and no upvoted post or followed handle repeats |
| Ledger.KnownCommentApiIssue | src/aiathena/agent.py:475 | the comment failure text contains "401" or "Authentication required" |
| Ledger.AppendKeepsWindowBound | src/aiathena/agent.py:391-393 | appending a record keeps a window bound when a success is appended only below the cap |
| Ledger.AppendKeepsDistinct | src/aiathena/agent.py:501-506 | appending a target not already in the history keeps targets distinct |
| Ledger.AppendKeepsGoverned | src/aiathena/agent.py:382-559 | a record that passes the rate-limit and duplicate checks keeps the governed invariant |
| Ledger.PositionalWindowForgets | src/aiathena/agent.py:391-393 | once n non-matching records follow, earlier successes no longer count: the limit is positional, not timed |
| Ledger.NoSuccessesCounted | src/aiathena/agent.py:391 | records none of which succeeded as the action count zero |
| Ledger.AgentDeps.constructor | src/aiathena/agent.py:99-104 | a fresh ledger has an empty action history, which is governed |
| Ledger.AgentDeps.Append | src/aiathena/agent.py:415 | the history grows by exactly the record given |
| Ledger.AgentDeps.CreatePost | src/aiathena/agent.py:382-428 | rate limit, then title, then content validation refuse with their messages; accepted texts are sanitized and sent; each path appends its exact record (or none when rate limited); the governed invariant is kept |
| Ledger.AgentDeps.AddComment | src/aiathena/agent.py:431-489 | rate limit, then validation; an accepted comment is sanitized and sent; a 401 or "Authentication required" failure is recorded as the known API issue; the invariant is kept |
| Ledger.AgentDeps.UpvotePost | src/aiathena/agent.py:492-524 | rate limit, then a repeat upvote of a post, are refused without a call or a record; otherwise the call is made and its outcome recorded; the invariant is kept |
| Ledger.AgentDeps.FollowAgent | src/aiathena/agent.py:527-559 | rate limit, then a repeat follow of a handle, are refused without a call or a record; otherwise the call is made and recorded under `handle`; the invariant is kept |
| Runner.Dispatches | src/aiathena/agent.py:623-690 | the decision reaches an action branch: its action with every field that branch needs non-empty |
| Runner.ChosenSubmolt | src/aiathena/agent.py:624 | the decision's submolt when non-empty, else "general" |
| Runner.Dispatch | src/aiathena/agent.py:621-707 | a decision dispatches iff its action has its required fields; each branch's call and exact record (title or content refusal, id or "unknown", truncated errors, upvote failures without post_id, follows under `agent`), with no rate or duplicate check; wait appends nothing |
| Runner.RunTool | src/aiathena/agent.py:586-589 | a tool call the model makes keeps the governed invariant and appends at most one record |
| Runner.RunTools | src/aiathena/agent.py:586-589 | the model's tool calls keep the governed invariant, preserve earlier records and append at most one record each |
| Runner.CountKind | src/aiathena/agent.py:732-734 | the number of records of one action is at most the number of records |
| Runner.CountSucceeded | src/aiathena/agent.py:723 | the number of successful records is at most the number of records |
| Runner.CountFailed | src/aiathena/agent.py:724 | the number of failed records is at most the number of records |
| Runner.SucceededPlusFailed | src/aiathena/agent.py:723-724 | successful and failed records together are the whole history |
| Runner.KindsPartition | src/aiathena/agent.py:732-734 | the per-action counts sum to the length of the history |
| Runner.NoWaitCounted | src/aiathena/agent.py:732-734 | a history without wait records counts no waits |
| Runner.BuildSummary | src/aiathena/agent.py:722-740 | iterations as given; success and failure counts partition the history; an action is a key iff it occurs, with its count as value; the per-type counts sum to the history's length |
| Runner.IterationBudget | src/aiathena/agent.py:721 | no budget iff max_iterations is None or 0; a positive budget is itself; a negative one is exactly 1 |
| Runner.DispatchedCount | src/aiathena/agent.py:621-707 | the number of dispatching cycles is at most the number of cycles |
| Runner.DispatchDecision | src/aiathena/agent.py:621-707 | the decision, if any, appends exactly one record when it dispatches and none otherwise, keeping earlier records |
| Runner.RunCycle | src/aiathena/agent.py:577-720 | a cycle keeps earlier records and appends one record for a dispatching decision plus at most one per tool call |
| Runner.RunAgent | src/aiathena/agent.py:563-756 | the cycles run are the budget's; the run ends on its budget iff the budget is reached, with a summary exactly then that counts the final history; no wait records; the history holds at least one record per dispatching decision and at most that plus one per tool call; the client is closed |
| Runner.QuietCyclesRecordNothing | src/aiathena/agent.py:701-707 | cycles that only wait make no tool call and dispatch nothing |
| Runner.NegativeBudgetRunsOnce | src/aiathena/agent.py:721 | a negative max_iterations stops the run after its first cycle |
| Runner.UnboundedRunsUntilInterrupted | src/aiathena/agent.py:721 | with no budget or a budget of 0, the run takes every cycle and ends on the interrupt |
| Runner.BudgetIsExact | src/aiathena/agent.py:721 | a positive budget no larger than the cycles available runs exactly that many cycles |
| Context.ErrorNote | src/aiathena/agent.py:208 | empty for a success; for a failure the recorded error's first min(30, length) characters |
| Context.HistoryLine | src/aiathena/agent.py:206-209 | one listed record: two spaces, a dash, the action, a check or cross mark, and the error note |
| Context.HistoryLines | src/aiathena/agent.py:205-209 | one line per listed record, in order |
| Context.ListRecords | src/aiathena/agent.py:205-209 | the loop formats exactly the given records, one line each, in order |
| Context.ContextParts | src/aiathena/agent.py:201-220 | the list of lines the instructions join: time, then the no-actions line, or header, window lines and the reminder |
| Context.ContextPartsShape | src/aiathena/agent.py:198-220 | the time first; then either the "no actions" line, or the header, one line per record of the last five and the reminder exactly when the session holds a successful post |
| Context.ContextSeesWindowAndPostCount | src/aiathena/agent.py:203-218 | histories that agree on emptiness, the last five records and the session's success post count produce the same instructions |
| Context.JoinStartsWithFirst | src/aiathena/agent.py:222 | joined parts start with the first part |
| Context.AddContext | src/aiathena/agent.py:198-222 | the prompt is the parts joined by newlines, and it starts with the time line |
| Context.SafetyText | src/aiathena/agent.py:249 | the text the engagement check reads: title, a space, then content as the f-string renders it |
| Context.View | src/aiathena/agent.py:253-261 | id; the title's first min(80, length) characters; author "?" by default; counts 0 by default; the content's first min(150, length) characters; the post is kept and flagged iff its title and content carry manipulation |
| Context.SlicePrefix | src/aiathena/agent.py:247 | Python's `xs[:limit]`, including negative limits; the result is a prefix of the list |
| Context.ViewPosts | src/aiathena/agent.py:248-262 | the loop yields one view per post shown, each the post's `View`, in order |
| Context.GetHotPosts | src/aiathena/agent.py:241-265 | a failed feed call yields the error entry; otherwise one view per post of the sliced feed, in order, and at most `limit` of them |
| Context.NullContentReadsAsNone | src/aiathena/agent.py:250-259 | a null content is previewed as empty, yet the engagement check reads the word "None" in its place |
| Scenarios.ToolRefusesRepeatUpvote | src/aiathena/agent.py:501-506 | a second upvote of the same post through the tool is refused and leaves a single record |
| Scenarios.LoopRepeatsUpvote | src/aiathena/agent.py:678-683 | two loop upvotes of the same post both go through; the history is not governed |
| Scenarios.LoopFollowEscapesDuplicateCheck | src/aiathena/agent.py:536-541 | after the loop follows "bob", the follow tool follows "bob" again, because the loop's record has no `handle` |
| Scenarios.LoopFollowIsInvisible | src/aiathena/agent.py:531-541 | a record without `handle` is no duplicate for the follow tool, though a successful one counts once in its window |
| Scenarios.DoubleFollowStaysGoverned | src/aiathena/agent.py:536-541 | the loop follow and the tool follow of one agent leave a governed history, since the invariant keys follows on `handle` as the tool does |
| Scenarios.PostsInARow | src/aiathena/agent.py:391 | one, two and three successful posts count 1, 2 and 3 |
| Scenarios.OnePostLeavesRoom | src/aiathena/agent.py:391-393 | right after one successful post, a second is not rate limited |
| Scenarios.TwoPostsFillWindow | src/aiathena/agent.py:391-393 | two successful posts make the post tool rate limited |
| Scenarios.ThreePostsInWindow | src/aiathena/agent.py:391-393 | three successful posts in a row all lie in the post window |
| Scenarios.ToolRefusesThirdPost | src/aiathena/agent.py:391-393 | after two successful posts, the tool refuses a third with the rate-limit message, making no call |
| Scenarios.ThreePostsUngoverned | src/aiathena/agent.py:621-650 | three successful posts in a row, as the loop may write them, break the governed invariant |
| Scenarios.FollowsInARow | src/aiathena/agent.py:531-533 | four successful follows in a row all lie in the follow window |
| Scenarios.FourFollowsUngoverned | src/aiathena/agent.py:531-533 | four successful follows in a row break the governed invariant |
| Scenarios.LoopFollowsPastRateLimit | src/aiathena/agent.py:690-695 | the loop follows four agents in a row, and the resulting history is not governed |
| Scenarios.WaitingRunRecordsNothing | src/aiathena/agent.py:701-707 | a three-cycle run of waits under a budget of 3 ends on its budget with an empty history and an empty summary |
| Scenarios.PostReminderOutlivesWindow | src/aiathena/agent.py:213-218 | the reminder counts the whole session: it still shows after the post has left the window |

## Left out

- The language model, its system prompt and the tool texts it reads back are not modelled. The model's choices are inputs: the tool calls and the decision of each cycle.
- The regular-expression engine is not modelled. It is a parameter, constrained only by `Guardrails.EngineLaws`. Only `[a-f0-9]{64}` and the agent-name mention check are defined concretely.
- Guardrails.SomeCommentTargetsAgent: the mention check folds case for ASCII letters only, while Python's `re.IGNORECASE` also folds other Unicode letters.
- Logging, console output and the truncated display of the model's reasoning are not modelled: they change no state.
- The clock is a parameter (`now` of `Context.AddContext`). Sleeps, random jitter, the run's uuid and floating-point timing are not modelled.
- The HTTP client and the Moltbook API are not modelled. Each call's reply is an input (`ApiReply`, `FeedReply`), and the call made is an output.
- Exceptions other than a failed API call are not modelled. This covers a non-string error, a `None` title or author in the feed, and an exception raised inside the model's iteration. A failing iteration is modelled only as a cycle that dispatches nothing.
- `KeyboardInterrupt` is modelled as the cycle sequence running out (`Stopped`). A real interrupt can arrive mid-cycle.
- Runner.RunAgent: the history is bounded by counts, not computed exactly. Its exact content depends on which model tool calls the governor admits, as the tool methods state per call.
- `get_my_profile`, the web server, configuration and credential loading are not part of this model.
- Records written by code outside the tools and the loop are not modelled. This includes a record whose `action` key is missing, which `add_context` would print as "?".
