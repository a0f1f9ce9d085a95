/** The action-history ledger and the per-tool governor: the `action_history` list of
    the agent's dependencies, the windowed rate limits and duplicate checks that the
    four tools consult, and the tools themselves, which append one record per attempt
    that passes those checks. */
module Ledger {
  import opened Util
  import opened Guardrails

  datatype Action = Post | Comment | Upvote | Follow | Wait

  /** The dictionary keys a record may carry besides `action` and `success`. */
  datatype Key = Id | PostId | Title | Content | Handle | Agent | Submolt | Error

  /** One entry of `action_history`: `{"action": ..., "success": ..., <fields>}`. */
  datatype ActionRecord = ActionRecord(action: Action, success: bool, fields: map<Key, string>) {
    /** `record.get(key)` */
    function Get(key: Key): Option<string> {
      if key in fields then Some(fields[key]) else None
    }
  }

  /** What the remote API answered to one call: its JSON reply (only the created post's
      id matters) or the exception it raised, as `str(e)`. */
  datatype ApiReply = ApiOk(postId: Option<string>) | ApiFailed(message: string)

  /** A call made to the remote API, with the arguments it was given. */
  datatype ApiCall =
    | CreatePostCall(title: string, content: string, submolt: string)
    | CreateCommentCall(postId: string, content: string)
    | UpvoteCall(postId: string)
    | FollowCall(handle: string)

  // ---------------------------------------------------------------------------
  // Queries over the ledger

  /** `history[-n:]`: the last `n` records, or all of them. */
  function Window(h: seq<ActionRecord>, n: nat): (w: seq<ActionRecord>)
    ensures |w| == if |h| <= n then |h| else n
    ensures w == h[|h| - |w|..]
  {
    if |h| <= n then h else h[|h| - n..]
  }

  predicate SucceededAs(r: ActionRecord, k: Action) {
    r.action == k && r.success
  }

  /** The number of successful records of kind `k`. */
  function CountSuccesses(s: seq<ActionRecord>, k: Action): (c: nat)
    ensures c <= |s|
  {
    if |s| == 0 then 0
    else CountSuccesses(s[..|s| - 1], k) + (if SucceededAs(s[|s| - 1], k) then 1 else 0)
  }

  lemma {:induction false} CountSuccessesConcat(a: seq<ActionRecord>, b: seq<ActionRecord>, k: Action)
    ensures CountSuccesses(a + b, k) == CountSuccesses(a, k) + CountSuccesses(b, k)
    decreases |b|
  {
    if |b| == 0 {
      assert a + b == a;
    } else {
      var b' := b[..|b| - 1];
      assert (a + b)[..|a + b| - 1] == a + b';
      CountSuccessesConcat(a, b', k);
    }
  }

  /** The list comprehension of each tool's rate check: successful records of kind `k`
      among the last `n`. */
  function RecentSuccesses(h: seq<ActionRecord>, k: Action, n: nat): nat {
    CountSuccesses(Window(h, n), k)
  }

  /** The window of each tool's rate check. */
  function WindowSize(k: Action): nat {
    match k
    case Post => 5
    case Comment => 5
    case Upvote => 10
    case Follow => 10
    case Wait => 0
  }

  /** The number of successes in the window at which each tool refuses. */
  function Threshold(k: Action): nat {
    match k
    case Post => 2
    case Comment => 3
    case Upvote => 5
    case Follow => 3
    case Wait => 0
  }

  /** The tool for kind `k` refuses: its window already holds `Threshold(k)` successes. */
  predicate RateLimited(h: seq<ActionRecord>, k: Action)
    requires k != Wait
  {
    RecentSuccesses(h, k, WindowSize(k)) >= Threshold(k)
  }

  predicate Targets(r: ActionRecord, k: Action, key: Key, value: string) {
    r.action == k && r.Get(key) == Some(value)
  }

  /** The `any(...)` duplicate check: some record anywhere in the history, successful or
      not, has kind `k` and `value` under `key`. */
  predicate Targeted(h: seq<ActionRecord>, k: Action, key: Key, value: string) {
    exists i | 0 <= i < |h| :: Targets(h[i], k, key, value)
  }

  // ---------------------------------------------------------------------------
  // Invariants of a history that only the tools have written

  ghost predicate NoWaitRecords(h: seq<ActionRecord>) {
    forall i | 0 <= i < |h| :: h[i].action != Wait
  }

  /** Every window of `n` consecutive records, at every point of the history, holds at
      most `cap` successes of kind `k`. */
  ghost predicate WindowBounded(h: seq<ActionRecord>, k: Action, n: nat, cap: nat) {
    forall j | 0 <= j <= |h| :: RecentSuccesses(h[..j], k, n) <= cap
  }

  /** No two records of kind `k` carry the same value under `key`. */
  ghost predicate DistinctTargets(h: seq<ActionRecord>, k: Action, key: Key) {
    forall i, j | 0 <= i < j < |h| && h[i].action == k && h[j].action == k && key in h[i].fields ::
      h[j].Get(key) != Some(h[i].fields[key])
  }

  /** What the governor guarantees of the histories it writes: at most 2 successful posts
      and 3 successful comments in any 5 consecutive records, at most 5 successful upvotes
      and 3 successful follows in any 10, no post upvoted twice, no handle followed twice. */
  ghost predicate Governed(h: seq<ActionRecord>) {
    && WindowBounded(h, Post, WindowSize(Post), Threshold(Post))
    && WindowBounded(h, Comment, WindowSize(Comment), Threshold(Comment))
    && WindowBounded(h, Upvote, WindowSize(Upvote), Threshold(Upvote))
    && WindowBounded(h, Follow, WindowSize(Follow), Threshold(Follow))
    && DistinctTargets(h, Upvote, PostId)
    && DistinctTargets(h, Follow, Handle)
  }

  lemma WindowOfAppend(h: seq<ActionRecord>, r: ActionRecord, n: nat)
    requires n >= 1
    ensures Window(h + [r], n) == Window(h, n - 1) + [r]
  {
  }

  /** A shorter window never holds more successes than a longer one. */
  lemma WindowMonotone(h: seq<ActionRecord>, k: Action, n: nat)
    requires n >= 1
    ensures RecentSuccesses(h, k, n - 1) <= RecentSuccesses(h, k, n)
  {
    var w := Window(h, n);
    var w' := Window(h, n - 1);
    assert w == w[..|w| - |w'|] + w';
    CountSuccessesConcat(w[..|w| - |w'|], w', k);
  }

  /** Appending a record keeps the window bound for `k` when the record is not a success
      of kind `k`, or when the current window still has room for one. */
  lemma {:induction false} AppendKeepsWindowBound(h: seq<ActionRecord>, r: ActionRecord, k: Action, n: nat, cap: nat)
    requires n >= 1
    requires WindowBounded(h, k, n, cap)
    requires SucceededAs(r, k) ==> RecentSuccesses(h, k, n) < cap
    ensures WindowBounded(h + [r], k, n, cap)
  {
    var h' := h + [r];
    forall j | 0 <= j <= |h'| ensures RecentSuccesses(h'[..j], k, n) <= cap {
      if j <= |h| {
        assert h'[..j] == h[..j];
      } else {
        assert h'[..j] == h + [r];
        assert h[..|h|] == h;
        WindowOfAppend(h, r, n);
        CountSuccessesConcat(Window(h, n - 1), [r], k);
        assert CountSuccesses([r], k) == if SucceededAs(r, k) then 1 else 0 by {
          assert [r][..0] == [];
        }
        WindowMonotone(h, k, n);
      }
    }
  }

  lemma AppendKeepsDistinct(h: seq<ActionRecord>, r: ActionRecord, k: Action, key: Key)
    requires DistinctTargets(h, k, key)
    requires r.action == k && key in r.fields ==> !Targeted(h, k, key, r.fields[key])
    ensures DistinctTargets(h + [r], k, key)
  {
    var h' := h + [r];
    forall i, j | 0 <= i < j < |h'| && h'[i].action == k && h'[j].action == k && key in h'[i].fields
      ensures h'[j].Get(key) != Some(h'[i].fields[key])
    {
      if j == |h| && key in r.fields {
        assert !Targets(h[i], k, key, r.fields[key]);
      }
    }
  }

  /** A record that passed its tool's rate and duplicate checks keeps the history governed. */
  lemma AppendKeepsGoverned(h: seq<ActionRecord>, r: ActionRecord)
    requires r.action != Wait
    requires r.success ==> !RateLimited(h, r.action)
    requires r.action == Upvote && PostId in r.fields ==> !Targeted(h, Upvote, PostId, r.fields[PostId])
    requires r.action == Follow && Handle in r.fields ==> !Targeted(h, Follow, Handle, r.fields[Handle])
    ensures Governed(h) ==> Governed(h + [r])
  {
    if Governed(h) {
    AppendKeepsWindowBound(h, r, Post, WindowSize(Post), Threshold(Post));
    AppendKeepsWindowBound(h, r, Comment, WindowSize(Comment), Threshold(Comment));
    AppendKeepsWindowBound(h, r, Upvote, WindowSize(Upvote), Threshold(Upvote));
    AppendKeepsWindowBound(h, r, Follow, WindowSize(Follow), Threshold(Follow));
    AppendKeepsDistinct(h, r, Upvote, PostId);
    AppendKeepsDistinct(h, r, Follow, Handle);
    }
  }

  /** The window is positional: `n` records without a success of kind `k` empty it,
      however recent the earlier successes were. */
  lemma {:induction false} PositionalWindowForgets(h: seq<ActionRecord>, later: seq<ActionRecord>, k: Action, n: nat)
    requires |later| >= n
    requires forall i | 0 <= i < |later| :: !SucceededAs(later[i], k)
    ensures RecentSuccesses(h + later, k, n) == 0
  {
    var w := Window(h + later, n);
    assert w == later[|later| - n..];
    NoSuccessesCounted(w, k);
  }

  lemma {:induction false} NoSuccessesCounted(s: seq<ActionRecord>, k: Action)
    requires forall i | 0 <= i < |s| :: !SucceededAs(s[i], k)
    ensures CountSuccesses(s, k) == 0
    decreases |s|
  {
    if |s| > 0 {
      NoSuccessesCounted(s[..|s| - 1], k);
    }
  }

  /** Records that all succeeded as `k` are all counted. */
  lemma {:induction false} AllSuccessesCounted(s: seq<ActionRecord>, k: Action)
    requires forall i | 0 <= i < |s| :: SucceededAs(s[i], k)
    ensures CountSuccesses(s, k) == |s|
    decreases |s|
  {
    if |s| > 0 {
      AllSuccessesCounted(s[..|s| - 1], k);
    }
  }

  // ---------------------------------------------------------------------------
  // The tools

  const PostRateLimitedError: string := "Error: Rate limited - too many recent posts. Wait before posting again."
  const CommentRateLimitedError: string := "Error: Rate limited - too many recent comments. Wait before commenting again."
  const UpvoteRateLimitedError: string := "Error: Rate limited - too many recent upvotes."
  const FollowRateLimitedError: string := "Error: Rate limited - too many recent follows."
  const AlreadyUpvotedError: string := "Error: Already upvoted this post."
  const AlreadyFollowingError: string := "Error: Already following this agent."
  const CommentApiIssueError: string :=
    "Error: Moltbook comments API is currently unavailable (known platform issue). Focus on creating posts and upvoting instead."

  /** The comment API's known failure: the exception text mentions 401 or authentication. */
  predicate KnownCommentApiIssue(message: string) {
    HasSubstring(message, "401") || HasSubstring(message, "Authentication required")
  }

  /** A tool call leaves the history alone or appends one record to it. */
  predicate AtMostOneAppended(before: seq<ActionRecord>, after: seq<ActionRecord>) {
    after == before || (|after| == |before| + 1 && after[..|before|] == before)
  }

  lemma EmptyWindowBounded(k: Action, n: nat, cap: nat)
    ensures WindowBounded([], k, n, cap)
  {
    forall j | 0 <= j <= 0
      ensures RecentSuccesses([][..j], k, n) <= cap
    {
      assert Window([][..j], n) == [];
    }
  }

  /** The empty history is governed. */
  lemma EmptyIsGoverned()
    ensures Governed([])
  {
    EmptyWindowBounded(Post, WindowSize(Post), Threshold(Post));
    EmptyWindowBounded(Comment, WindowSize(Comment), Threshold(Comment));
    EmptyWindowBounded(Upvote, WindowSize(Upvote), Threshold(Upvote));
    EmptyWindowBounded(Follow, WindowSize(Follow), Threshold(Follow));
  }

  /** A history that extended `start` still extends it after at most one more append. */
  lemma StillExtends(start: seq<ActionRecord>, before: seq<ActionRecord>, after: seq<ActionRecord>)
    requires |start| <= |before| && before[..|start|] == start
    requires AtMostOneAppended(before, after)
    ensures |before| <= |after| <= |before| + 1 && after[..|start|] == start
  {
    if after != before {
      assert after[..|start|] == after[..|before|][..|start|];
    }
  }

  /** The agent's dependencies: the API client (left out) and the shared history. */
  class AgentDeps {
    var history: seq<ActionRecord>

    ghost predicate Valid()
      reads this
    {
      NoWaitRecords(history)
    }

    constructor ()
      ensures Valid() && history == [] && Governed(history)
    {
      history := [];
      EmptyIsGoverned();
    }

    method Append(r: ActionRecord)
      requires Valid() && r.action != Wait
      modifies this
      ensures Valid() && history == old(history) + [r]
    {
      history := history + [r];
    }

    /** `create_post`: rate check, then title, then content validation, then the API call
        with the sanitized title and content. */
    method CreatePost(re: Regex, title: string, content: string, submolt: string, reply: ApiReply)
      returns (out: string, sent: Option<ApiCall>)
      requires Valid()
      modifies this
      ensures Valid()
      ensures Governed(old(history)) ==> Governed(history)
      ensures AtMostOneAppended(old(history), history)
      ensures RateLimited(old(history), Post) ==>
        history == old(history) && sent == None && out == PostRateLimitedError
      ensures !RateLimited(old(history), Post) && ValidateOutput(re, title).Unsafe? ==>
        var reason := ValidateOutput(re, title).reason;
        && history == old(history) + [ActionRecord(Post, false, map[Error := "title_" + reason])]
        && sent == None && out == "Error: Title blocked - " + reason
      ensures !RateLimited(old(history), Post) && ValidateOutput(re, title).Safe? && ValidateOutput(re, content).Unsafe? ==>
        var reason := ValidateOutput(re, content).reason;
        && history == old(history) + [ActionRecord(Post, false, map[Error := "content_" + reason])]
        && sent == None && out == "Error: Content blocked - " + reason
      ensures !RateLimited(old(history), Post) && ValidateOutput(re, title).Safe? && ValidateOutput(re, content).Safe? ==>
        && sent == Some(CreatePostCall(Sanitized(re, title), Sanitized(re, content), submolt))
        && history == old(history) + [
          match reply
          case ApiOk(id) => ActionRecord(Post, true, map[Id := id.GetOr("created"), Title := Truncate(Sanitized(re, title), 50)])
          case ApiFailed(e) => ActionRecord(Post, false, map[Error := Truncate(e, 50)])]
        && out == match reply
          case ApiOk(id) => "Post created with ID: " + id.GetOr("created")
          case ApiFailed(e) => "Error: " + e
    {
      if RecentSuccesses(history, Post, WindowSize(Post)) >= Threshold(Post) {
        return PostRateLimitedError, None;
      }
      var titleVerdict := ValidateOutput(re, title);
      if titleVerdict.Unsafe? {
        AppendKeepsGoverned(history, ActionRecord(Post, false, map[Error := "title_" + titleVerdict.reason]));
        Append(ActionRecord(Post, false, map[Error := "title_" + titleVerdict.reason]));
        return "Error: Title blocked - " + titleVerdict.reason, None;
      }
      var contentVerdict := ValidateOutput(re, content);
      if contentVerdict.Unsafe? {
        AppendKeepsGoverned(history, ActionRecord(Post, false, map[Error := "content_" + contentVerdict.reason]));
        Append(ActionRecord(Post, false, map[Error := "content_" + contentVerdict.reason]));
        return "Error: Content blocked - " + contentVerdict.reason, None;
      }
      var cleanTitle := Sanitize(re, title);
      var cleanContent := Sanitize(re, content);
      sent := Some(CreatePostCall(cleanTitle, cleanContent, submolt));
      var record: ActionRecord;
      match reply {
        case ApiOk(id) =>
          record := ActionRecord(Post, true, map[Id := id.GetOr("created"), Title := Truncate(cleanTitle, 50)]);
          out := "Post created with ID: " + id.GetOr("created");
        case ApiFailed(e) =>
          record := ActionRecord(Post, false, map[Error := Truncate(e, 50)]);
          out := "Error: " + e;
      }
      AppendKeepsGoverned(history, record);
      Append(record);
    }

    /** `add_comment`: rate check, content validation, then the API call with the
        sanitized content; the known 401 failure is recorded under its own error text. */
    method AddComment(re: Regex, postId: string, content: string, reply: ApiReply)
      returns (out: string, sent: Option<ApiCall>)
      requires Valid()
      modifies this
      ensures Valid()
      ensures Governed(old(history)) ==> Governed(history)
      ensures AtMostOneAppended(old(history), history)
      ensures RateLimited(old(history), Comment) ==>
        history == old(history) && sent == None && out == CommentRateLimitedError
      ensures !RateLimited(old(history), Comment) && ValidateOutput(re, content).Unsafe? ==>
        var reason := ValidateOutput(re, content).reason;
        && history == old(history) + [ActionRecord(Comment, false, map[Error := reason])]
        && sent == None && out == "Error: Content blocked - " + reason
      ensures !RateLimited(old(history), Comment) && ValidateOutput(re, content).Safe? ==>
        && sent == Some(CreateCommentCall(postId, Sanitized(re, content)))
        && history == old(history) + [
          match reply
          case ApiOk(_) => ActionRecord(Comment, true, map[PostId := postId, Content := Truncate(Sanitized(re, content), 50)])
          case ApiFailed(e) =>
            if KnownCommentApiIssue(e) then ActionRecord(Comment, false, map[Error := "Moltbook API issue"])
            else ActionRecord(Comment, false, map[PostId := postId, Error := Truncate(e, 50)])]
        && out == match reply
          case ApiOk(_) => "Comment added successfully"
          case ApiFailed(e) => if KnownCommentApiIssue(e) then CommentApiIssueError else "Error: " + e
    {
      if RecentSuccesses(history, Comment, WindowSize(Comment)) >= Threshold(Comment) {
        return CommentRateLimitedError, None;
      }
      var verdict := ValidateOutput(re, content);
      if verdict.Unsafe? {
        AppendKeepsGoverned(history, ActionRecord(Comment, false, map[Error := verdict.reason]));
        Append(ActionRecord(Comment, false, map[Error := verdict.reason]));
        return "Error: Content blocked - " + verdict.reason, None;
      }
      var clean := Sanitize(re, content);
      sent := Some(CreateCommentCall(postId, clean));
      var record: ActionRecord;
      match reply {
        case ApiOk(_) =>
          record := ActionRecord(Comment, true, map[PostId := postId, Content := Truncate(clean, 50)]);
          out := "Comment added successfully";
        case ApiFailed(e) =>
          if KnownCommentApiIssue(e) {
            record := ActionRecord(Comment, false, map[Error := "Moltbook API issue"]);
            out := CommentApiIssueError;
          } else {
            record := ActionRecord(Comment, false, map[PostId := postId, Error := Truncate(e, 50)]);
            out := "Error: " + e;
          }
      }
      AppendKeepsGoverned(history, record);
      Append(record);
    }

    /** `upvote_post`: rate check, then a duplicate check over the whole history. */
    method UpvotePost(postId: string, reply: ApiReply) returns (out: string, sent: Option<ApiCall>)
      requires Valid()
      modifies this
      ensures Valid()
      ensures Governed(old(history)) ==> Governed(history)
      ensures AtMostOneAppended(old(history), history)
      ensures RateLimited(old(history), Upvote) ==>
        history == old(history) && sent == None && out == UpvoteRateLimitedError
      ensures !RateLimited(old(history), Upvote) && Targeted(old(history), Upvote, PostId, postId) ==>
        history == old(history) && sent == None && out == AlreadyUpvotedError
      ensures !RateLimited(old(history), Upvote) && !Targeted(old(history), Upvote, PostId, postId) ==>
        && sent == Some(UpvoteCall(postId))
        && history == old(history) + [
          match reply
          case ApiOk(_) => ActionRecord(Upvote, true, map[PostId := postId])
          case ApiFailed(e) => ActionRecord(Upvote, false, map[PostId := postId, Error := Truncate(e, 50)])]
        && out == match reply
          case ApiOk(_) => "Post upvoted"
          case ApiFailed(e) => "Error: " + e
    {
      if RecentSuccesses(history, Upvote, WindowSize(Upvote)) >= Threshold(Upvote) {
        return UpvoteRateLimitedError, None;
      }
      var alreadyUpvoted := exists i | 0 <= i < |history| :: Targets(history[i], Upvote, PostId, postId);
      if alreadyUpvoted {
        return AlreadyUpvotedError, None;
      }
      sent := Some(UpvoteCall(postId));
      var record: ActionRecord;
      match reply {
        case ApiOk(_) =>
          record := ActionRecord(Upvote, true, map[PostId := postId]);
          out := "Post upvoted";
        case ApiFailed(e) =>
          record := ActionRecord(Upvote, false, map[PostId := postId, Error := Truncate(e, 50)]);
          out := "Error: " + e;
      }
      AppendKeepsGoverned(history, record);
      Append(record);
    }

    /** `follow_agent`: rate check, then a duplicate check on the `handle` key. */
    method FollowAgent(handle: string, reply: ApiReply) returns (out: string, sent: Option<ApiCall>)
      requires Valid()
      modifies this
      ensures Valid()
      ensures Governed(old(history)) ==> Governed(history)
      ensures AtMostOneAppended(old(history), history)
      ensures RateLimited(old(history), Follow) ==>
        history == old(history) && sent == None && out == FollowRateLimitedError
      ensures !RateLimited(old(history), Follow) && Targeted(old(history), Follow, Handle, handle) ==>
        history == old(history) && sent == None && out == AlreadyFollowingError
      ensures !RateLimited(old(history), Follow) && !Targeted(old(history), Follow, Handle, handle) ==>
        && sent == Some(FollowCall(handle))
        && history == old(history) + [
          match reply
          case ApiOk(_) => ActionRecord(Follow, true, map[Handle := handle])
          case ApiFailed(e) => ActionRecord(Follow, false, map[Handle := handle, Error := Truncate(e, 50)])]
        && out == match reply
          case ApiOk(_) => "Now following " + handle
          case ApiFailed(e) => "Error: " + e
    {
      if RecentSuccesses(history, Follow, WindowSize(Follow)) >= Threshold(Follow) {
        return FollowRateLimitedError, None;
      }
      var alreadyFollowing := exists i | 0 <= i < |history| :: Targets(history[i], Follow, Handle, handle);
      if alreadyFollowing {
        return AlreadyFollowingError, None;
      }
      sent := Some(FollowCall(handle));
      var record: ActionRecord;
      match reply {
        case ApiOk(_) =>
          record := ActionRecord(Follow, true, map[Handle := handle]);
          out := "Now following " + handle;
        case ApiFailed(e) =>
          record := ActionRecord(Follow, false, map[Handle := handle, Error := Truncate(e, 50)]);
          out := "Error: " + e;
      }
      AppendKeepsGoverned(history, record);
      Append(record);
    }
  }
}
