/** The decision loop of `run_agent`: each cycle, the tools the model calls while it
    decides go through the governed tool methods; the decision it returns is then
    dispatched on its kind and on which fields are present, validated and sanitized, and
    recorded, with no rate or duplicate check. After the last cycle a summary is built. */
module Runner {
  import opened Util
  import opened Guardrails
  import opened Ledger

  /** The model's structured output. */
  datatype AgentDecision = AgentDecision(
    thinking: string,
    action: Action,
    title: Option<string>,
    content: Option<string>,
    submolt: Option<string>,
    postId: Option<string>,
    agentHandle: Option<string>)

  predicate PostsNow(d: AgentDecision) {
    d.action == Post && Truthy(d.title) && Truthy(d.content)
  }

  predicate CommentsNow(d: AgentDecision) {
    d.action == Comment && Truthy(d.postId) && Truthy(d.content)
  }

  predicate UpvotesNow(d: AgentDecision) {
    d.action == Upvote && Truthy(d.postId)
  }

  predicate FollowsNow(d: AgentDecision) {
    d.action == Follow && Truthy(d.agentHandle)
  }

  /** The decision reaches one of the four action branches; every other decision,
      including a `post` without a title, is handled as a wait. */
  predicate Dispatches(d: AgentDecision) {
    PostsNow(d) || CommentsNow(d) || UpvotesNow(d) || FollowsNow(d)
  }

  function ChosenSubmolt(d: AgentDecision): string {
    if Truthy(d.submolt) then d.submolt.value else "general"
  }

  /** The `if/elif` chain of the loop body. */
  method Dispatch(re: Regex, deps: AgentDeps, d: AgentDecision, reply: ApiReply) returns (sent: Option<ApiCall>)
    requires deps.Valid()
    modifies deps
    ensures deps.Valid()
    ensures |deps.history| == |old(deps.history)| + (if Dispatches(d) then 1 else 0)
    ensures deps.history[..|old(deps.history)|] == old(deps.history)
    ensures !Dispatches(d) ==> deps.history == old(deps.history) && sent == None
    ensures PostsNow(d) && ValidateOutput(re, d.title.value).Unsafe? ==>
      && sent == None
      && deps.history == old(deps.history) + [ActionRecord(Post, false, map[Error := ValidateOutput(re, d.title.value).reason])]
    ensures PostsNow(d) && ValidateOutput(re, d.title.value).Safe? && ValidateOutput(re, d.content.value).Unsafe? ==>
      && sent == None
      && deps.history == old(deps.history) + [ActionRecord(Post, false, map[Error := ValidateOutput(re, d.content.value).reason])]
    ensures PostsNow(d) && ValidateOutput(re, d.title.value).Safe? && ValidateOutput(re, d.content.value).Safe? ==>
      && sent == Some(CreatePostCall(Sanitized(re, d.title.value), Sanitized(re, d.content.value), ChosenSubmolt(d)))
      && deps.history == old(deps.history) + [
        match reply
        case ApiOk(id) => ActionRecord(Post, true, map[PostId := id.GetOr("unknown"), Submolt := ChosenSubmolt(d)])
        case ApiFailed(e) => ActionRecord(Post, false, map[Error := Truncate(e, 50)])]
    ensures CommentsNow(d) && ValidateOutput(re, d.content.value).Unsafe? ==>
      && sent == None
      && deps.history == old(deps.history) + [ActionRecord(Comment, false, map[Error := ValidateOutput(re, d.content.value).reason])]
    ensures CommentsNow(d) && ValidateOutput(re, d.content.value).Safe? ==>
      && sent == Some(CreateCommentCall(d.postId.value, Sanitized(re, d.content.value)))
      && deps.history == old(deps.history) + [
        match reply
        case ApiOk(_) => ActionRecord(Comment, true, map[PostId := d.postId.value])
        case ApiFailed(e) => ActionRecord(Comment, false, map[Error := Truncate(e, 50)])]
    ensures UpvotesNow(d) ==>
      && sent == Some(UpvoteCall(d.postId.value))
      && deps.history == old(deps.history) + [
        match reply
        case ApiOk(_) => ActionRecord(Upvote, true, map[PostId := d.postId.value])
        case ApiFailed(e) => ActionRecord(Upvote, false, map[Error := Truncate(e, 50)])]
    ensures FollowsNow(d) ==>
      && sent == Some(FollowCall(d.agentHandle.value))
      && deps.history == old(deps.history) + [
        match reply
        case ApiOk(_) => ActionRecord(Follow, true, map[Agent := d.agentHandle.value])
        case ApiFailed(e) => ActionRecord(Follow, false, map[Error := Truncate(e, 50)])]
  {
    sent := None;
    if PostsNow(d) {
      var titleVerdict := ValidateOutput(re, d.title.value);
      var contentVerdict := ValidateOutput(re, d.content.value);
      if titleVerdict.Unsafe? {
        deps.Append(ActionRecord(Post, false, map[Error := titleVerdict.reason]));
      } else if contentVerdict.Unsafe? {
        deps.Append(ActionRecord(Post, false, map[Error := contentVerdict.reason]));
      } else {
        var title := Sanitize(re, d.title.value);
        var content := Sanitize(re, d.content.value);
        var submolt := ChosenSubmolt(d);
        sent := Some(CreatePostCall(title, content, submolt));
        match reply {
          case ApiOk(id) =>
            deps.Append(ActionRecord(Post, true, map[PostId := id.GetOr("unknown"), Submolt := submolt]));
          case ApiFailed(e) =>
            deps.Append(ActionRecord(Post, false, map[Error := Truncate(e, 50)]));
        }
      }
    } else if CommentsNow(d) {
      var verdict := ValidateOutput(re, d.content.value);
      if verdict.Unsafe? {
        deps.Append(ActionRecord(Comment, false, map[Error := verdict.reason]));
      } else {
        var content := Sanitize(re, d.content.value);
        sent := Some(CreateCommentCall(d.postId.value, content));
        match reply {
          case ApiOk(_) =>
            deps.Append(ActionRecord(Comment, true, map[PostId := d.postId.value]));
          case ApiFailed(e) =>
            deps.Append(ActionRecord(Comment, false, map[Error := Truncate(e, 50)]));
        }
      }
    } else if UpvotesNow(d) {
      sent := Some(UpvoteCall(d.postId.value));
      match reply {
        case ApiOk(_) =>
          deps.Append(ActionRecord(Upvote, true, map[PostId := d.postId.value]));
        case ApiFailed(e) =>
          deps.Append(ActionRecord(Upvote, false, map[Error := Truncate(e, 50)]));
      }
    } else if FollowsNow(d) {
      sent := Some(FollowCall(d.agentHandle.value));
      match reply {
        case ApiOk(_) =>
          deps.Append(ActionRecord(Follow, true, map[Agent := d.agentHandle.value]));
        case ApiFailed(e) =>
          deps.Append(ActionRecord(Follow, false, map[Error := Truncate(e, 50)]));
      }
    }
  }

  // ---------------------------------------------------------------------------
  // Tool calls made by the model while it decides

  /** A tool invocation by the model, with what the remote API would answer to it. */
  datatype ToolCall =
    | CreatePostTool(title: string, content: string, submolt: string, reply: ApiReply)
    | AddCommentTool(postId: string, content: string, reply: ApiReply)
    | UpvoteTool(postId: string, reply: ApiReply)
    | FollowTool(handle: string, reply: ApiReply)

  /** One tool invocation, through the governed tool method it names. */
  method RunTool(re: Regex, deps: AgentDeps, call: ToolCall)
    requires deps.Valid()
    modifies deps
    ensures deps.Valid()
    ensures Governed(old(deps.history)) ==> Governed(deps.history)
    ensures AtMostOneAppended(old(deps.history), deps.history)
  {
    match call {
      case CreatePostTool(title, content, submolt, reply) =>
        var _, _ := deps.CreatePost(re, title, content, submolt, reply);
      case AddCommentTool(postId, content, reply) =>
        var _, _ := deps.AddComment(re, postId, content, reply);
      case UpvoteTool(postId, reply) =>
        var _, _ := deps.UpvotePost(postId, reply);
      case FollowTool(handle, reply) =>
        var _, _ := deps.FollowAgent(handle, reply);
    }
  }

  /** The tools invoked, in order; each appends at most one record and keeps the
      history governed. */
  method RunTools(re: Regex, deps: AgentDeps, calls: seq<ToolCall>)
    requires deps.Valid()
    modifies deps
    ensures deps.Valid()
    ensures Governed(old(deps.history)) ==> Governed(deps.history)
    ensures |old(deps.history)| <= |deps.history| <= |old(deps.history)| + |calls|
    ensures deps.history[..|old(deps.history)|] == old(deps.history)
  {
    ghost var start := deps.history;
    for i := 0 to |calls|
      invariant deps.Valid()
      invariant Governed(start) ==> Governed(deps.history)
      invariant |start| <= |deps.history| <= |start| + i
      invariant deps.history[..|start|] == start
    {
      ghost var before := deps.history;
      RunTool(re, deps, calls[i]);
      StillExtends(start, before, deps.history);
    }
  }

  // ---------------------------------------------------------------------------
  // The run summary

  predicate IsKind(r: ActionRecord, a: Action) {
    r.action == a
  }

  /** `len([a for a in history if a.get("action") == kind])` */
  function CountKind(h: seq<ActionRecord>, a: Action): (c: nat)
    ensures c <= |h|
  {
    if |h| == 0 then 0 else CountKind(h[..|h| - 1], a) + (if IsKind(h[|h| - 1], a) then 1 else 0)
  }

  /** `len([a for a in history if a.get("success")])` */
  function CountSucceeded(h: seq<ActionRecord>): (c: nat)
    ensures c <= |h|
  {
    if |h| == 0 then 0 else CountSucceeded(h[..|h| - 1]) + (if h[|h| - 1].success then 1 else 0)
  }

  /** `len([a for a in history if not a.get("success")])` */
  function CountFailed(h: seq<ActionRecord>): (c: nat)
    ensures c <= |h|
  {
    if |h| == 0 then 0 else CountFailed(h[..|h| - 1]) + (if h[|h| - 1].success then 0 else 1)
  }

  /** Every record is either successful or failed. */
  lemma {:induction false} SucceededPlusFailed(h: seq<ActionRecord>)
    ensures CountSucceeded(h) + CountFailed(h) == |h|
  {
    if |h| > 0 {
      SucceededPlusFailed(h[..|h| - 1]);
    }
  }

  /** Every record has exactly one kind. */
  lemma {:induction false} KindsPartition(h: seq<ActionRecord>)
    ensures CountKind(h, Post) + CountKind(h, Comment) + CountKind(h, Upvote) + CountKind(h, Follow) + CountKind(h, Wait) == |h|
  {
    if |h| > 0 {
      KindsPartition(h[..|h| - 1]);
    }
  }

  lemma {:induction false} NoWaitCounted(h: seq<ActionRecord>)
    requires NoWaitRecords(h)
    ensures CountKind(h, Wait) == 0
  {
    if |h| > 0 {
      assert NoWaitRecords(h[..|h| - 1]);
      NoWaitCounted(h[..|h| - 1]);
    }
  }

  datatype RunSummary = RunSummary(
    totalIterations: nat,
    successfulActions: nat,
    failedActions: nat,
    actionsByType: map<Action, nat>)

  function CountIn(m: map<Action, nat>, a: Action): nat {
    if a in m then m[a] else 0
  }

  /** The sum of the values of `actions_by_type`. */
  function TotalByType(m: map<Action, nat>): nat {
    CountIn(m, Post) + CountIn(m, Comment) + CountIn(m, Upvote) + CountIn(m, Follow) + CountIn(m, Wait)
  }

  /** The summary of `run_agent`: the success and failure counts and, by a loop over the
      history, the number of records of each kind. */
  method BuildSummary(iterations: nat, h: seq<ActionRecord>) returns (s: RunSummary)
    ensures s.totalIterations == iterations
    ensures s.successfulActions == CountSucceeded(h) && s.failedActions == CountFailed(h)
    ensures s.successfulActions + s.failedActions == |h|
    ensures forall a :: a in s.actionsByType <==> CountKind(h, a) > 0
    ensures forall a :: a in s.actionsByType ==> s.actionsByType[a] == CountKind(h, a)
    ensures TotalByType(s.actionsByType) == |h|
  {
    var byType: map<Action, nat> := map[];
    for i := 0 to |h|
      invariant forall a :: a in byType <==> CountKind(h[..i], a) > 0
      invariant forall a :: CountIn(byType, a) == CountKind(h[..i], a)
    {
      assert h[..i + 1][..i] == h[..i];
      var kind := h[i].action;
      byType := byType[kind := CountIn(byType, kind) + 1];
    }
    assert h[..|h|] == h;
    SucceededPlusFailed(h);
    KindsPartition(h);
    s := RunSummary(iterations, CountSucceeded(h), CountFailed(h), byType);
  }

  // ---------------------------------------------------------------------------
  // The loop

  /** One cycle as the environment plays it: the tools the model calls while deciding,
      the decision it returns (`None` when the model call raised), and what the remote
      API answers to the call the decision leads to. */
  datatype Cycle = Cycle(tools: seq<ToolCall>, decision: Option<AgentDecision>, reply: ApiReply)

  datatype Stop = Done | Stopped

  /** `max_iterations and iteration >= max_iterations`, with `iteration >= 1`, holds from
      this iteration on: `None` and `0` never stop the loop, a negative bound stops it
      after the first cycle. */
  function IterationBudget(maxIterations: Option<int>): (b: Option<nat>)
    ensures b.Some? ==> b.value >= 1
    ensures maxIterations.Some? && maxIterations.value >= 1 ==> b == Some(maxIterations.value)
    ensures maxIterations.Some? && maxIterations.value < 0 ==> b == Some(1)
    ensures (maxIterations == None || maxIterations == Some(0)) <==> b == None
  {
    if maxIterations.Some? && maxIterations.value != 0 then
      Some(if maxIterations.value < 1 then 1 else maxIterations.value)
    else None
  }

  /** The budget is reached before the operator interrupts after `available` cycles. */
  predicate BudgetReached(maxIterations: Option<int>, available: nat) {
    IterationBudget(maxIterations).Some? && IterationBudget(maxIterations).value <= available
  }

  function CyclesRun(maxIterations: Option<int>, available: nat): nat {
    if BudgetReached(maxIterations, available) then IterationBudget(maxIterations).value else available
  }

  function DispatchedCount(cs: seq<Cycle>): (n: nat)
    ensures n <= |cs|
  {
    if |cs| == 0 then 0
    else DispatchedCount(cs[..|cs| - 1]) + (if CycleDispatches(cs[|cs| - 1]) then 1 else 0)
  }

  function ToolCallCount(cs: seq<Cycle>): nat {
    if |cs| == 0 then 0 else ToolCallCount(cs[..|cs| - 1]) + |cs[|cs| - 1].tools|
  }

  /** Whether the cycle's decision reaches an action branch. */
  predicate CycleDispatches(c: Cycle) {
    c.decision.Some? && Dispatches(c.decision.value)
  }

  /** One pass of the loop body before the budget check. */
  method RunCycle(re: Regex, deps: AgentDeps, cycle: Cycle)
    requires deps.Valid()
    modifies deps
    ensures deps.Valid()
    ensures |old(deps.history)| + (if CycleDispatches(cycle) then 1 else 0) <= |deps.history|
              <= |old(deps.history)| + (if CycleDispatches(cycle) then 1 else 0) + |cycle.tools|
    ensures deps.history[..|old(deps.history)|] == old(deps.history)
  {
    ghost var start := deps.history;
    RunTools(re, deps, cycle.tools);
    ghost var mid := deps.history;
    DispatchDecision(re, deps, cycle);
    assert deps.history[..|start|] == deps.history[..|mid|][..|start|];
  }

  /** The loop's dispatch of the cycle's decision, if the model returned one. */
  method DispatchDecision(re: Regex, deps: AgentDeps, cycle: Cycle)
    requires deps.Valid()
    modifies deps
    ensures deps.Valid()
    ensures |deps.history| == |old(deps.history)| + (if CycleDispatches(cycle) then 1 else 0)
    ensures deps.history[..|old(deps.history)|] == old(deps.history)
  {
    if cycle.decision.Some? {
      var _ := Dispatch(re, deps, cycle.decision.value, cycle.reply);
    }
  }

  /** `run_agent`. The operator's interrupt arrives once the `cycles` are used up; the
      client is closed on both exits. */
  method RunAgent(re: Regex, maxIterations: Option<int>, cycles: seq<Cycle>)
    returns (iterations: nat, stop: Stop, history: seq<ActionRecord>, summary: Option<RunSummary>, closed: bool)
    ensures iterations == CyclesRun(maxIterations, |cycles|)
    ensures stop == Done <==> BudgetReached(maxIterations, |cycles|)
    ensures summary.Some? <==> stop == Done
    ensures summary.Some? ==>
      && summary.value.totalIterations == iterations
      && summary.value.successfulActions == CountSucceeded(history)
      && summary.value.failedActions == CountFailed(history)
      && summary.value.successfulActions + summary.value.failedActions == |history|
      && TotalByType(summary.value.actionsByType) == |history|
      && (forall a :: a in summary.value.actionsByType <==> CountKind(history, a) > 0)
      && (forall a :: a in summary.value.actionsByType ==> summary.value.actionsByType[a] == CountKind(history, a))
      && Wait !in summary.value.actionsByType
    ensures NoWaitRecords(history)
    ensures DispatchedCount(cycles[..iterations]) <= |history|
              <= DispatchedCount(cycles[..iterations]) + ToolCallCount(cycles[..iterations])
    ensures closed
  {
    var deps := new AgentDeps();
    iterations, stop, summary := 0, Stopped, None;
    while iterations < |cycles|
      invariant iterations <= |cycles|
      invariant fresh(deps) && deps.Valid()
      invariant stop == Stopped && summary == None
      invariant !BudgetReached(maxIterations, iterations)
      invariant DispatchedCount(cycles[..iterations]) <= |deps.history|
                  <= DispatchedCount(cycles[..iterations]) + ToolCallCount(cycles[..iterations])
    {
      var cycle := cycles[iterations];
      iterations := iterations + 1;
      assert cycles[..iterations][..iterations - 1] == cycles[..iterations - 1];
      RunCycle(re, deps, cycle);
      if maxIterations.Some? && maxIterations.value != 0 && iterations >= maxIterations.value {
        NoWaitCounted(deps.history);
        var s := BuildSummary(iterations, deps.history);
        summary, stop := Some(s), Done;
        break;
      }
    }
    history := deps.history;
    closed := true;
  }

  /** Cycles that call no tool and decide to wait write nothing. */
  lemma {:induction false} QuietCyclesRecordNothing(cs: seq<Cycle>)
    requires forall i | 0 <= i < |cs| :: cs[i].tools == [] && !CycleDispatches(cs[i])
    ensures DispatchedCount(cs) == 0 && ToolCallCount(cs) == 0
  {
    if |cs| > 0 {
      QuietCyclesRecordNothing(cs[..|cs| - 1]);
    }
  }

  /** A negative bound stops the loop after its first cycle. */
  lemma NegativeBudgetRunsOnce(maxIterations: int, available: nat)
    requires maxIterations < 0 && available >= 1
    ensures BudgetReached(Some(maxIterations), available)
    ensures CyclesRun(Some(maxIterations), available) == 1
  {
  }

  /** Without a bound, or with a bound of zero, only the interrupt ends the loop. */
  lemma UnboundedRunsUntilInterrupted(available: nat)
    ensures !BudgetReached(None, available) && CyclesRun(None, available) == available
    ensures !BudgetReached(Some(0), available) && CyclesRun(Some(0), available) == available
  {
  }

  /** With a bound of at least one and enough cycles, the loop runs exactly that many. */
  lemma BudgetIsExact(maxIterations: int, available: nat)
    requires 1 <= maxIterations <= available
    ensures CyclesRun(Some(maxIterations), available) == maxIterations
    ensures BudgetReached(Some(maxIterations), available)
  {
  }
}
