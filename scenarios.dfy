/** Concrete runs that pin down how the governor and the loop behave: what the tools
    refuse, and what the loop lets through because it records its actions without the
    tools' checks. */
module Scenarios {
  import opened Util
  import opened Guardrails
  import opened Ledger
  import opened Runner
  import opened Context

  /** The tool refuses to upvote a post twice, and records only the first upvote. */
  method ToolRefusesRepeatUpvote() returns (first: string, second: string, history: seq<ActionRecord>)
    ensures first == "Post upvoted"
    ensures second == AlreadyUpvotedError
    ensures history == [ActionRecord(Upvote, true, map[PostId := "p1"])]
  {
    var deps := new AgentDeps();
    var sent;
    first, sent := deps.UpvotePost("p1", ApiOk(None));
    assert Targets(deps.history[0], Upvote, PostId, "p1");
    second, sent := deps.UpvotePost("p1", ApiOk(None));
    history := deps.history;
  }

  /** The loop upvotes the same post twice: the history it writes is not governed. */
  method LoopRepeatsUpvote(re: Regex) returns (history: seq<ActionRecord>)
    ensures history == [ActionRecord(Upvote, true, map[PostId := "p1"]), ActionRecord(Upvote, true, map[PostId := "p1"])]
    ensures !DistinctTargets(history, Upvote, PostId)
    ensures !Governed(history)
  {
    var deps := new AgentDeps();
    var d := AgentDecision("", Upvote, None, None, None, Some("p1"), None);
    var sent := Dispatch(re, deps, d, ApiOk(None));
    sent := Dispatch(re, deps, d, ApiOk(None));
    history := deps.history;
    assert history[1].Get(PostId) == Some(history[0].fields[PostId]);
  }

  /** A follow made by the loop is stored under `agent`, so the tool's duplicate check,
      which reads `handle`, lets the same handle be followed again. */
  method LoopFollowEscapesDuplicateCheck(re: Regex) returns (out: string, sent: Option<ApiCall>, history: seq<ActionRecord>)
    ensures out == "Now following " + "bob"
    ensures sent == Some(FollowCall("bob"))
    ensures history == [LoopFollowRecord("bob"), ActionRecord(Follow, true, map[Handle := "bob"])]
  {
    var deps := new AgentDeps();
    LoopFollow(re, deps, "bob");
    assert deps.history == [LoopFollowRecord("bob")];
    LoopFollowIsInvisible(LoopFollowRecord("bob"), "bob");
    out, sent := ToolFollow(deps, "bob");
    history := deps.history;
  }

  /** The follow tool, accepted by the API, for a handle its checks let through. */
  method ToolFollow(deps: AgentDeps, handle: string) returns (out: string, sent: Option<ApiCall>)
    requires deps.Valid()
    requires !RateLimited(deps.history, Follow) && !Targeted(deps.history, Follow, Handle, handle)
    modifies deps
    ensures deps.history == old(deps.history) + [ActionRecord(Follow, true, map[Handle := handle])]
    ensures out == "Now following " + handle && sent == Some(FollowCall(handle))
  {
    out, sent := deps.FollowAgent(handle, ApiOk(None));
  }

  /** A record without a `handle` key is no duplicate for the follow tool, although a
      successful one does count in the tool's window. */
  lemma LoopFollowIsInvisible(r: ActionRecord, handle: string)
    requires Handle !in r.fields
    ensures !Targeted([r], Follow, Handle, handle)
    ensures RecentSuccesses([r], Follow, WindowSize(Follow)) == if SucceededAs(r, Follow) then 1 else 0
  {
    assert [r][..0] == [];
  }

  /** Successful posts in a row are all counted by the post window. */
  lemma {:induction false} PostsInARow(r: ActionRecord)
    requires SucceededAs(r, Post)
    ensures CountSuccesses([r], Post) == 1
    ensures CountSuccesses([r, r], Post) == 2
    ensures CountSuccesses([r, r, r], Post) == 3
  {
    assert [r][..0] == [];
    assert CountSuccesses([r], Post) == 1;
    assert [r, r] == [r] + [r];
    CountSuccessesConcat([r], [r], Post);
    assert [r, r, r] == [r, r] + [r];
    CountSuccessesConcat([r, r], [r], Post);
  }

  /** One successful post leaves room in the window for a second right away, whatever the
      one-post-per-thirty-minutes rule in the instructions says. */
  lemma OnePostLeavesRoom(r: ActionRecord)
    requires SucceededAs(r, Post)
    ensures !RateLimited([r], Post)
  {
    PostsInARow(r);
    assert Window([r], 5) == [r];
  }

  /** Two successful posts fill the window. */
  lemma TwoPostsFillWindow(r: ActionRecord)
    requires SucceededAs(r, Post)
    ensures RateLimited([r, r], Post)
  {
    PostsInARow(r);
    assert Window([r, r], 5) == [r, r];
  }

  /** Three successful posts in a row are all in the window. */
  lemma ThreePostsInWindow(r: ActionRecord)
    requires SucceededAs(r, Post)
    ensures RecentSuccesses([r, r, r], Post, WindowSize(Post)) == 3
  {
    PostsInARow(r);
    assert Window([r, r, r], 5) == [r, r, r];
  }

  /** A call of the post tool when its window is full. */
  method RefusedPost(re: Regex, deps: AgentDeps, title: string, content: string)
    returns (out: string, sent: Option<ApiCall>)
    requires deps.Valid() && RateLimited(deps.history, Post)
    modifies deps
    ensures deps.Valid() && deps.history == old(deps.history)
    ensures out == PostRateLimitedError && sent == None
  {
    out, sent := deps.CreatePost(re, title, content, "general", ApiOk(None));
  }

  /** After two successful posts the tool refuses a third before looking at its texts. */
  method ToolRefusesThirdPost(re: Regex, title: string, content: string)
    returns (out: string, sent: Option<ApiCall>, history: seq<ActionRecord>)
    ensures out == PostRateLimitedError && sent == None
    ensures history == [LoopPostRecord, LoopPostRecord]
  {
    var deps := new AgentDeps();
    deps.Append(LoopPostRecord);
    deps.Append(LoopPostRecord);
    assert deps.history == [LoopPostRecord, LoopPostRecord];
    TwoPostsFillWindow(LoopPostRecord);
    out, sent := RefusedPost(re, deps, title, content);
    history := deps.history;
  }

  /** The record the loop writes for a post accepted under id "x" in the default submolt. */
  const LoopPostRecord: ActionRecord := ActionRecord(Post, true, map[PostId := "x", Submolt := "general"])

  /** Three successful posts in a row break the post window bound; the loop, which checks
      no window, writes such a history for three accepted post decisions. */
  lemma ThreePostsUngoverned(r: ActionRecord)
    requires SucceededAs(r, Post)
    ensures !Governed([r, r, r])
  {
    ThreePostsInWindow(r);
    assert [r, r, r][..3] == [r, r, r];
  }

  function LoopFollowRecord(handle: string): ActionRecord {
    ActionRecord(Follow, true, map[Agent := handle])
  }

  /** A follow decision for `handle`, as the model returns it. */
  function FollowDecision(handle: string): AgentDecision {
    AgentDecision("", Follow, None, None, None, None, Some(handle))
  }

  /** Four follows in a row are counted by the follow window. */
  lemma FollowsInARow(a: ActionRecord, b: ActionRecord, c: ActionRecord, d: ActionRecord)
    requires SucceededAs(a, Follow) && SucceededAs(b, Follow) && SucceededAs(c, Follow) && SucceededAs(d, Follow)
    ensures RecentSuccesses([a, b, c, d], Follow, WindowSize(Follow)) == 4
  {
    assert Window([a, b, c, d], 10) == [a, b, c, d];
    AllSuccessesCounted([a, b, c, d], Follow);
  }

  /** One follow decision dispatched by the loop and accepted by the API. */
  method LoopFollow(re: Regex, deps: AgentDeps, handle: string)
    requires deps.Valid() && |handle| > 0
    modifies deps
    ensures deps.Valid()
    ensures deps.history == old(deps.history) + [LoopFollowRecord(handle)]
  {
    var _ := Dispatch(re, deps, FollowDecision(handle), ApiOk(None));
  }

  /** The history the loop follow and the tool follow of "bob" leave is governed: the
      invariant, like the tool, keys follows on `handle`, so neither sees the double follow. */
  lemma DoubleFollowStaysGoverned()
    ensures Governed([LoopFollowRecord("bob"), ActionRecord(Follow, true, map[Handle := "bob"])])
  {
    var first := LoopFollowRecord("bob");
    var second := ActionRecord(Follow, true, map[Handle := "bob"]);
    assert [] + [first] == [first];
    EmptyIsGoverned();
    AppendKeepsGoverned([], first);
    LoopFollowIsInvisible(first, "bob");
    AppendKeepsGoverned([first], second);
    assert [first] + [second] == [first, second];
  }

  /** The loop follows four agents in a row, one more than the follow tool admits in any
      ten records: the history it writes is not governed. */
  method LoopFollowsPastRateLimit(re: Regex) returns (history: seq<ActionRecord>)
    ensures history == [LoopFollowRecord("a"), LoopFollowRecord("b"), LoopFollowRecord("c"), LoopFollowRecord("d")]
    ensures !Governed(history)
  {
    var deps := new AgentDeps();
    LoopFollow(re, deps, "a");
    assert deps.history == [LoopFollowRecord("a")];
    LoopFollow(re, deps, "b");
    assert deps.history == [LoopFollowRecord("a"), LoopFollowRecord("b")];
    LoopFollow(re, deps, "c");
    assert deps.history == [LoopFollowRecord("a"), LoopFollowRecord("b"), LoopFollowRecord("c")];
    LoopFollow(re, deps, "d");
    history := deps.history;
    FourFollowsUngoverned(LoopFollowRecord("a"), LoopFollowRecord("b"), LoopFollowRecord("c"), LoopFollowRecord("d"));
  }

  /** Four successful follows in a row break the follow window bound. */
  lemma FourFollowsUngoverned(a: ActionRecord, b: ActionRecord, c: ActionRecord, d: ActionRecord)
    requires SucceededAs(a, Follow) && SucceededAs(b, Follow) && SucceededAs(c, Follow) && SucceededAs(d, Follow)
    ensures !Governed([a, b, c, d])
  {
    FollowsInARow(a, b, c, d);
    assert [a, b, c, d][..4] == [a, b, c, d];
  }

  /** A run whose every cycle waits ends on its budget with an empty history and an
      empty summary. */
  method WaitingRunRecordsNothing(re: Regex)
    returns (iterations: nat, stop: Stop, history: seq<ActionRecord>, summary: Option<RunSummary>)
    ensures iterations == 3 && stop == Done && history == []
    ensures summary.Some? && summary.value.totalIterations == 3
    ensures summary.value.successfulActions == 0 && summary.value.failedActions == 0
    ensures summary.value.actionsByType.Keys == {}
  {
    var wait := Cycle([], Some(AgentDecision("", Wait, None, None, None, None, None)), ApiOk(None));
    var cycles := [wait, wait, wait];
    QuietCyclesRecordNothing(cycles[..3]);
    var closed;
    iterations, stop, history, summary, closed := RunAgent(re, Some(3), cycles);
  }

  /** The post reminder counts the whole session: it still shows after five other
      records have pushed the post out of the listed window. */
  lemma PostReminderOutlivesWindow(now: string)
    ensures var p := ActionRecord(Post, true, map[Id := "x"]);
      var u := ActionRecord(Upvote, true, map[PostId := "y"]);
      var h := [p] + [u, u, u, u, u];
      && RecentSuccesses(h, Post, WindowSize(Post)) == 0
      && ContextParts(now, h)[|ContextParts(now, h)| - 1] == PostWarning(1)
  {
    var p := ActionRecord(Post, true, map[Id := "x"]);
    var u := ActionRecord(Upvote, true, map[PostId := "y"]);
    var later := [u, u, u, u, u];
    var h := [p] + later;
    PositionalWindowForgets([p], later, Post, WindowSize(Post));
    CountSuccessesConcat([p], later, Post);
    NoSuccessesCounted(later, Post);
    assert [p][..0] == [];
    assert SessionPosts(h) == 1;
    ContextPartsShape(now, h);
  }
}
