/** The frontend's streaming-progress state (`useStreamingRecipes`): three
    agent cards in fixed order, the completed recipes, and the flags, with
    one pure transition per callback. */
module StreamingHook {
  import opened JsValues
  import opened RecipeTypes
  import opened RecipeGeneration
  import opened StreamingGeneration

  /** An agent card's status: idle before any event, else the status of the
      last event. */
  datatype AgentStatus = Idle | Reported(status: ChunkStatus)

  datatype AgentProgress = AgentProgress(
    agentType: AgentType,
    status: AgentStatus,
    content: string,
    recipe: Option<Recipe>,
    progress: real)

  datatype StreamingState = StreamingState(
    isStreaming: bool,
    isConnected: bool,
    agents: seq<AgentProgress>,
    completedRecipes: seq<Recipe>,
    error: Option<string>)

  function IdleAgent(a: AgentType): AgentProgress {
    AgentProgress(a, Idle, "", None, 0.0)
  }

  /** The three idle cards in persona order. */
  const IdleAgents: seq<AgentProgress> := [IdleAgent(Classic), IdleAgent(Fusion), IdleAgent(Healthy)]

  const InitialState: StreamingState := StreamingState(false, false, IdleAgents, [], None)

  /** One card per persona, in persona order. */
  predicate WellShaped(s: StreamingState) {
    |s.agents| == 3 && forall k :: 0 <= k < 3 ==> s.agents[k].agentType == AgentOrder[k]
  }

  lemma InitialWellShaped()
    ensures WellShaped(InitialState)
    ensures forall k :: 0 <= k < 3 ==> InitialState.agents[k] == IdleAgent(AgentOrder[k])
  {
  }

  /** `{ ...agent, status: 'idle', content: '', progress: 0, recipe: undefined }`. */
  function Cleared(agent: AgentProgress): (r: AgentProgress)
    ensures r == IdleAgent(agent.agentType)
  {
    agent.(status := Idle, content := "", progress := 0.0, recipe := None)
  }

  function ClearedAgents(agents: seq<AgentProgress>): (r: seq<AgentProgress>)
    ensures |r| == |agents| && forall k :: 0 <= k < |agents| ==> r[k] == IdleAgent(agents[k].agentType)
  {
    seq(|agents|, k requires 0 <= k < |agents| => Cleared(agents[k]))
  }

  const NotConnectedMessage: string := "サーバーに接続されていません"
  const StartFailedMessage: string := "レシピ生成の開始に失敗しました"
  const ConnectFailedMessage: string := "WebSocket接続に失敗しました"

  /** `generateRecipes` while the socket is down: only the error is set. */
  function RefuseGeneration(s: StreamingState): (r: StreamingState)
    ensures r.error == Some(NotConnectedMessage)
    ensures r.agents == s.agents && r.isStreaming == s.isStreaming
            && r.completedRecipes == s.completedRecipes && r.isConnected == s.isConnected
  {
    s.(error := Some(NotConnectedMessage))
  }

  /** `generateRecipes` on a connected socket: all cards idle, no completed
      recipes, no error, streaming. */
  function BeginGeneration(s: StreamingState): (r: StreamingState)
    ensures r.isStreaming && r.error.None? && r.completedRecipes == [] && r.isConnected == s.isConnected
    ensures |r.agents| == |s.agents| && forall k :: 0 <= k < |s.agents| ==> r.agents[k] == IdleAgent(s.agents[k].agentType)
  {
    s.(isStreaming := true, error := None, completedRecipes := [], agents := ClearedAgents(s.agents))
  }

  /** Starting the request threw. */
  function StartFailed(s: StreamingState): (r: StreamingState)
    ensures !r.isStreaming && r.error == Some(StartFailedMessage)
    ensures r.agents == s.agents && r.completedRecipes == s.completedRecipes && r.isConnected == s.isConnected
  {
    s.(isStreaming := false, error := Some(StartFailedMessage))
  }

  /** A chunk applied to the card of its persona: the status is replaced,
      a truthy progress and a non-empty content replace the old ones, and a
      recipe is set when present. */
  function ApplyChunk(agent: AgentProgress, c: StreamChunk): (r: AgentProgress)
    ensures r.agentType == agent.agentType && r.status == Reported(c.status)
    ensures r.progress == (if c.progress != 0.0 then c.progress else agent.progress)
    ensures r.content == (if c.content != "" then c.content else agent.content)
    ensures r.recipe == (if c.recipe.Some? then c.recipe else agent.recipe)
  {
    var updated := agent.(status := Reported(c.status), progress := if c.progress != 0.0 then c.progress else agent.progress);
    var withContent := if c.content != "" then updated.(content := c.content) else updated;
    if c.recipe.Some? then withContent.(recipe := c.recipe) else withContent
  }

  function UpdateAgents(agents: seq<AgentProgress>, c: StreamChunk): (r: seq<AgentProgress>)
    ensures |r| == |agents|
  {
    seq(|agents|, k requires 0 <= k < |agents| =>
      if agents[k].agentType == c.agentType then ApplyChunk(agents[k], c) else agents[k])
  }

  /** `onChunk`: the card update, then a completed chunk's recipe is
      appended. */
  function OnChunk(s: StreamingState, c: StreamChunk): StreamingState {
    var t := s.(agents := UpdateAgents(s.agents, c));
    if c.status == Completed && c.recipe.Some? then t.(completedRecipes := t.completedRecipes + [c.recipe.value]) else t
  }

  /** A chunk changes only the card of its persona, keeps the card order and
      appends to the completed list exactly for a completed chunk with a
      recipe. */
  lemma OnChunkLocal(s: StreamingState, c: StreamChunk)
    requires WellShaped(s)
    ensures var r := OnChunk(s, c);
      WellShaped(r)
      && r.agents[AgentIndex(c.agentType)] == ApplyChunk(s.agents[AgentIndex(c.agentType)], c)
      && (forall k :: 0 <= k < 3 && k != AgentIndex(c.agentType) ==> r.agents[k] == s.agents[k])
      && r.completedRecipes == s.completedRecipes + RecipeOf(c)
      && r.isStreaming == s.isStreaming && r.isConnected == s.isConnected && r.error == s.error
  {
    var r := OnChunk(s, c);
    forall k | 0 <= k < 3 && k != AgentIndex(c.agentType)
      ensures r.agents[k] == s.agents[k]
    {
      assert s.agents[k].agentType == AgentOrder[k] != c.agentType;
    }
  }

  /** `onError`. */
  function OnError(s: StreamingState, message: string): (r: StreamingState)
    ensures !r.isStreaming && r.error == Some(message)
    ensures r.agents == s.agents && r.completedRecipes == s.completedRecipes && r.isConnected == s.isConnected
  {
    s.(isStreaming := false, error := Some(message))
  }

  /** `onComplete`. */
  function OnComplete(s: StreamingState): (r: StreamingState)
    ensures !r.isStreaming
    ensures r.agents == s.agents && r.completedRecipes == s.completedRecipes
            && r.isConnected == s.isConnected && r.error == s.error
  {
    s.(isStreaming := false)
  }

  /** `resetState`: idle cards, nothing completed, no error, not streaming;
      the connection flag is kept. */
  function Reset(s: StreamingState): (r: StreamingState)
    ensures !r.isStreaming && r.error.None? && r.completedRecipes == [] && r.isConnected == s.isConnected
    ensures |r.agents| == |s.agents| && forall k :: 0 <= k < |s.agents| ==> r.agents[k] == IdleAgent(s.agents[k].agentType)
  {
    s.(agents := ClearedAgents(s.agents), completedRecipes := [], error := None, isStreaming := false)
  }

  /** On a well-shaped state, resetting gives the initial state apart from
      the connection flag. */
  lemma ResetIsInitial(s: StreamingState)
    requires WellShaped(s)
    ensures Reset(s) == InitialState.(isConnected := s.isConnected)
  {
    assert Reset(s).agents == IdleAgents;
  }

  /** The events in order. */
  function OnChunks(s: StreamingState, cs: seq<StreamChunk>): StreamingState
    decreases |cs|
  {
    if cs == [] then s else OnChunk(OnChunks(s, cs[..|cs| - 1]), cs[|cs| - 1])
  }

  lemma {:induction false} OnChunksAppend(s: StreamingState, xs: seq<StreamChunk>, ys: seq<StreamChunk>)
    ensures OnChunks(s, xs + ys) == OnChunks(OnChunks(s, xs), ys)
    decreases |ys|
  {
    if ys == [] {
      assert xs + ys == xs;
    } else {
      assert (xs + ys)[..|xs + ys| - 1] == xs + ys[..|ys| - 1];
      OnChunksAppend(s, xs, ys[..|ys| - 1]);
    }
  }

  /** Events of persona `a` only change the card of `a`, keep the shape and
      the flags, and append each completed recipe. */
  lemma {:induction false} OnChunksOfAgent(s: StreamingState, a: AgentType, cs: seq<StreamChunk>)
    requires WellShaped(s)
    requires forall k :: 0 <= k < |cs| ==> cs[k].agentType == a
    ensures var r := OnChunks(s, cs);
      WellShaped(r)
      && (forall k :: 0 <= k < 3 && k != AgentIndex(a) ==> r.agents[k] == s.agents[k])
      && r.completedRecipes == s.completedRecipes + CompletedIn(cs)
      && r.isStreaming == s.isStreaming && r.isConnected == s.isConnected && r.error == s.error
    decreases |cs|
  {
    if cs != [] {
      var init := cs[..|cs| - 1];
      OnChunksOfAgent(s, a, init);
      OnChunkLocal(OnChunks(s, init), cs[|cs| - 1]);
    }
  }

  /** The recipe a chunk adds to the completed list. */
  function RecipeOf(c: StreamChunk): seq<Recipe> {
    if c.status == Completed && c.recipe.Some? then [c.recipe.value] else []
  }

  /** The recipes of the completed events, in order. */
  function CompletedIn(cs: seq<StreamChunk>): seq<Recipe>
    decreases |cs|
  {
    if cs == [] then [] else CompletedIn(cs[..|cs| - 1]) + RecipeOf(cs[|cs| - 1])
  }

  /** `after` is `before` once persona `a` has run to its final event
      `last`: that card shows the event's status at progress 100, the other
      cards and the flags are as they were, and the completed list gained the
      event's recipe, if any. */
  predicate Settled(before: StreamingState, after: StreamingState, a: AgentType, last: StreamChunk) {
    WellShaped(before) && WellShaped(after)
    && after.agents[AgentIndex(a)].status == Reported(last.status)
    && after.agents[AgentIndex(a)].progress == 100.0
    && (forall k :: 0 <= k < 3 && k != AgentIndex(a) ==> after.agents[k] == before.agents[k])
    && after.completedRecipes == before.completedRecipes + RecipeOf(last)
    && after.isStreaming == before.isStreaming && after.isConnected == before.isConnected
    && after.error == before.error
  }

  /** Three personas settled one after the other. */
  lemma SettledThree(s0: StreamingState, s1: StreamingState, s2: StreamingState, s3: StreamingState, lasts: seq<StreamChunk>)
    requires WellShaped(s0) && |lasts| == 3
    requires Settled(s0, s1, Classic, lasts[0]) && Settled(s1, s2, Fusion, lasts[1]) && Settled(s2, s3, Healthy, lasts[2])
    ensures WellShaped(s3) && s3.isStreaming == s0.isStreaming && s3.error == s0.error
    ensures forall k :: 0 <= k < 3 ==> s3.agents[k].status == Reported(lasts[k].status) && s3.agents[k].progress == 100.0
    ensures s3.completedRecipes == s0.completedRecipes + RecipeOf(lasts[0]) + RecipeOf(lasts[1]) + RecipeOf(lasts[2])
  {
  }

  /** After all events of one backend persona the card of that persona
      shows the terminal status at progress 100, and the completed list
      gained that persona's recipe exactly when it completed. */
  lemma AgentStreamSettles(s: StreamingState, a: AgentType, fs: seq<string>, last: StreamChunk)
    requires WellShaped(s) && FinalChunk(a, last)
    ensures Settled(s, OnChunks(s, EventsAround(a, fs, last)), a, last)
  {
    var head := [StartedChunk(a)] + ProgressChunks(a, fs);
    var evs := EventsAround(a, fs, last);
    assert forall k :: 0 <= k < |head| ==> head[k].agentType == a by {
      EventsTerminalLast(a, fs, last);
      assert forall k :: 0 <= k < |head| ==> head[k] == evs[k];
    }
    OnChunksOfAgent(s, a, head);
    NoCompletedBefore(a, fs, last);
    var mid := OnChunks(s, head);
    OnChunkLocal(mid, last);
    assert OnChunks(s, evs) == OnChunk(mid, last) by {
      OnChunksAppend(s, head, [last]);
      assert [last][..0] == [];
    }
  }

  /** The three personas' event runs in persona order. */
  function ThreeRuns(fss: seq<seq<string>>, lasts: seq<StreamChunk>): seq<StreamChunk>
    requires |fss| == 3 && |lasts| == 3
  {
    EventsAround(Classic, fss[0], lasts[0]) + EventsAround(Fusion, fss[1], lasts[1])
    + EventsAround(Healthy, fss[2], lasts[2])
  }

  lemma ThreeRunsSettle(s: StreamingState, fss: seq<seq<string>>, lasts: seq<StreamChunk>)
    requires WellShaped(s) && |fss| == 3 && |lasts| == 3
    requires forall k :: 0 <= k < 3 ==> FinalChunk(AgentOrder[k], lasts[k])
    ensures var r := OnComplete(OnChunks(BeginGeneration(s), ThreeRuns(fss, lasts)));
      WellShaped(r) && !r.isStreaming && r.error.None?
      && (forall k :: 0 <= k < 3 ==> r.agents[k].status == Reported(lasts[k].status) && r.agents[k].progress == 100.0)
      && r.completedRecipes == RecipeOf(lasts[0]) + RecipeOf(lasts[1]) + RecipeOf(lasts[2])
  {
    var s0 := BeginGeneration(s);
    ThreeSettled(s0, fss, lasts);
    assert s0.completedRecipes == [];
  }

  /** From a well-shaped state, the three runs leave every card settled
      and add the three personas' recipes in order. */
  lemma ThreeSettled(s0: StreamingState, fss: seq<seq<string>>, lasts: seq<StreamChunk>)
    requires WellShaped(s0) && |fss| == 3 && |lasts| == 3
    requires forall k :: 0 <= k < 3 ==> FinalChunk(AgentOrder[k], lasts[k])
    ensures var s3 := OnChunks(s0, ThreeRuns(fss, lasts));
      WellShaped(s3) && s3.isStreaming == s0.isStreaming && s3.error == s0.error
      && (forall k :: 0 <= k < 3 ==> s3.agents[k].status == Reported(lasts[k].status) && s3.agents[k].progress == 100.0)
      && s3.completedRecipes == s0.completedRecipes + RecipeOf(lasts[0]) + RecipeOf(lasts[1]) + RecipeOf(lasts[2])
  {
    var e0 := EventsAround(Classic, fss[0], lasts[0]);
    var e1 := EventsAround(Fusion, fss[1], lasts[1]);
    var e2 := EventsAround(Healthy, fss[2], lasts[2]);
    assert FinalChunk(Classic, lasts[0]) && FinalChunk(Fusion, lasts[1]) && FinalChunk(Healthy, lasts[2]);
    AgentStreamSettles(s0, Classic, fss[0], lasts[0]);
    AgentStreamSettles(OnChunks(s0, e0), Fusion, fss[1], lasts[1]);
    AgentStreamSettles(OnChunks(OnChunks(s0, e0), e1), Healthy, fss[2], lasts[2]);
    RunsInOrder(s0, e0, e1, e2, lasts);
  }

  /** Three event runs, each settling its persona, folded one after the
      other. */
  lemma RunsInOrder(s0: StreamingState, e0: seq<StreamChunk>, e1: seq<StreamChunk>, e2: seq<StreamChunk>, lasts: seq<StreamChunk>)
    requires WellShaped(s0) && |lasts| == 3
    requires Settled(s0, OnChunks(s0, e0), Classic, lasts[0])
    requires Settled(OnChunks(s0, e0), OnChunks(OnChunks(s0, e0), e1), Fusion, lasts[1])
    requires Settled(OnChunks(OnChunks(s0, e0), e1), OnChunks(OnChunks(OnChunks(s0, e0), e1), e2), Healthy, lasts[2])
    ensures var s3 := OnChunks(s0, e0 + e1 + e2);
      WellShaped(s3) && s3.isStreaming == s0.isStreaming && s3.error == s0.error
      && (forall k :: 0 <= k < 3 ==> s3.agents[k].status == Reported(lasts[k].status) && s3.agents[k].progress == 100.0)
      && s3.completedRecipes == s0.completedRecipes + RecipeOf(lasts[0]) + RecipeOf(lasts[1]) + RecipeOf(lasts[2])
  {
    var s1 := OnChunks(s0, e0);
    var s2 := OnChunks(s1, e1);
    var s3 := OnChunks(s2, e2);
    SettledThree(s0, s1, s2, s3, lasts);
    OnChunksAppend(s0, e0, e1);
    OnChunksAppend(s0, e0 + e1, e2);
  }

  /** The final events of a backend request, in persona order. */
  function Outcomes(replies: seq<StreamReply>, jsonParse: string -> Option<Value>, now: nat -> nat): (r: seq<StreamChunk>)
    requires |replies| == 3
    ensures |r| == 3
  {
    seq(3, k requires 0 <= k < 3 => Outcome(AgentOrder[k], k, replies[k], jsonParse, now(k)))
  }

  /** A whole backend request driven through the hook, with the three
      personas' events arriving in any interleaving: once `onComplete`
      arrives no card is still working, every card shows its persona's
      terminal event at progress 100, and the completed list holds exactly
      the completed personas' recipes, in the order they finished. */
  lemma RequestSettles(s: StreamingState, replies: seq<StreamReply>, jsonParse: string -> Option<Value>, now: nat -> nat,
                       evs: seq<StreamChunk>)
    requires WellShaped(s) && |replies| == 3
    requires Interleaves(evs, Fragments(replies), Outcomes(replies, jsonParse, now))
    ensures var r := OnComplete(OnChunks(BeginGeneration(s), evs));
      var lasts := Outcomes(replies, jsonParse, now);
      WellShaped(r) && !r.isStreaming && r.error.None?
      && (forall k :: 0 <= k < 3 ==> r.agents[k].status == Reported(lasts[k].status) && r.agents[k].progress == 100.0)
      && multiset(r.completedRecipes) == multiset(RecipeOf(lasts[0]) + RecipeOf(lasts[1]) + RecipeOf(lasts[2]))
  {
    var s0 := BeginGeneration(s);
    OutcomesFinal(replies, jsonParse, now);
    InterleavedRunsSettle(s0, evs, Fragments(replies), Outcomes(replies, jsonParse, now));
    assert s0.completedRecipes == [];
  }

  /** The backend's serialised event log is one of those interleavings; in
      it the recipes arrive in persona order. */
  lemma SerialRequestSettles(s: StreamingState, replies: seq<StreamReply>, jsonParse: string -> Option<Value>, now: nat -> nat)
    requires WellShaped(s) && |replies| == 3
    ensures Interleaves(AllEvents(replies, jsonParse, now), Fragments(replies), Outcomes(replies, jsonParse, now))
    ensures var r := OnComplete(OnChunks(BeginGeneration(s), AllEvents(replies, jsonParse, now)));
      var lasts := Outcomes(replies, jsonParse, now);
      r.completedRecipes == RecipeOf(lasts[0]) + RecipeOf(lasts[1]) + RecipeOf(lasts[2])
  {
    OutcomesFinal(replies, jsonParse, now);
    AllEventsAreThreeRuns(replies, jsonParse, now);
    ThreeRunsInterleave(Fragments(replies), Outcomes(replies, jsonParse, now));
    ThreeRunsSettle(s, Fragments(replies), Outcomes(replies, jsonParse, now));
  }

  function Fragments(replies: seq<StreamReply>): (r: seq<seq<string>>)
    requires |replies| == 3
    ensures |r| == 3
  {
    [replies[0].fragments, replies[1].fragments, replies[2].fragments]
  }

  lemma AllEventsAreThreeRuns(replies: seq<StreamReply>, jsonParse: string -> Option<Value>, now: nat -> nat)
    requires |replies| == 3
    ensures AllEvents(replies, jsonParse, now) == ThreeRuns(Fragments(replies), Outcomes(replies, jsonParse, now))
  {
  }

  lemma OutcomesFinal(replies: seq<StreamReply>, jsonParse: string -> Option<Value>, now: nat -> nat)
    requires |replies| == 3
    ensures forall k :: 0 <= k < 3 ==> FinalChunk(AgentOrder[k], Outcomes(replies, jsonParse, now)[k])
  {
    OutcomeIsFinal(Classic, 0, replies[0], jsonParse, now(0));
    OutcomeIsFinal(Fusion, 1, replies[1], jsonParse, now(1));
    OutcomeIsFinal(Healthy, 2, replies[2], jsonParse, now(2));
  }

  /** Only the last event of a persona's stream carries a recipe. */
  lemma NoCompletedBefore(a: AgentType, fs: seq<string>, last: StreamChunk)
    ensures CompletedIn([StartedChunk(a)] + ProgressChunks(a, fs)) == []
  {
    var head := [StartedChunk(a)] + ProgressChunks(a, fs);
    NoRecipes(head);
  }

  lemma {:induction false} NoRecipes(cs: seq<StreamChunk>)
    requires forall k :: 0 <= k < |cs| ==> cs[k].recipe.None?
    ensures CompletedIn(cs) == []
    decreases |cs|
  {
    if cs != [] {
      NoRecipes(cs[..|cs| - 1]);
    }
  }

  // ---------------------------------------------------------------------
  // Interleaved runs

  /** The events of persona `a`, in the order they arrive. */
  function OfAgent(cs: seq<StreamChunk>, a: AgentType): seq<StreamChunk>
    decreases |cs|
  {
    if cs == [] then []
    else OfAgent(cs[..|cs| - 1], a) + (if cs[|cs| - 1].agentType == a then [cs[|cs| - 1]] else [])
  }

  /** One card folded over a sequence of chunks. */
  function CardAfter(card: AgentProgress, cs: seq<StreamChunk>): AgentProgress
    decreases |cs|
  {
    if cs == [] then card else ApplyChunk(CardAfter(card, cs[..|cs| - 1]), cs[|cs| - 1])
  }

  /** The three agent closures run concurrently under `Promise.all`, so
      their events reach the hook in some interleaving: each persona's own
      events arrive in the order it sent them, and nothing else arrives. */
  predicate Interleaves(evs: seq<StreamChunk>, fss: seq<seq<string>>, lasts: seq<StreamChunk>)
    requires |fss| == 3 && |lasts| == 3
  {
    forall k :: 0 <= k < 3 ==> OfAgent(evs, AgentOrder[k]) == EventsAround(AgentOrder[k], fss[k], lasts[k])
  }

  /** The last event of a sequence goes to its persona's events only. */
  lemma OfAgentSnoc(xs: seq<StreamChunk>, c: StreamChunk, a: AgentType)
    ensures OfAgent(xs + [c], a) == OfAgent(xs, a) + (if c.agentType == a then [c] else [])
  {
    assert (xs + [c])[..|xs + [c]| - 1] == xs;
  }

  lemma CardAfterSnoc(card: AgentProgress, xs: seq<StreamChunk>, c: StreamChunk)
    ensures CardAfter(card, xs + [c]) == ApplyChunk(CardAfter(card, xs), c)
  {
    assert (xs + [c])[..|xs + [c]| - 1] == xs;
  }

  lemma CompletedInSnoc(xs: seq<StreamChunk>, c: StreamChunk)
    ensures CompletedIn(xs + [c]) == CompletedIn(xs) + RecipeOf(c)
  {
    assert (xs + [c])[..|xs + [c]| - 1] == xs;
  }

  /** Whatever the interleaving, the shape and the flags are kept and the
      completed list gains the completed recipes in arrival order. */
  lemma {:induction false} OnChunksShape(s: StreamingState, cs: seq<StreamChunk>)
    requires WellShaped(s)
    ensures var r := OnChunks(s, cs);
      WellShaped(r) && r.completedRecipes == s.completedRecipes + CompletedIn(cs)
      && r.isStreaming == s.isStreaming && r.isConnected == s.isConnected && r.error == s.error
    decreases |cs|
  {
    if cs != [] {
      OnChunksShape(s, cs[..|cs| - 1]);
      OnChunkLocal(OnChunks(s, cs[..|cs| - 1]), cs[|cs| - 1]);
    }
  }

  /** Whatever the interleaving, each card is its own persona's events
      folded over it. */
  lemma {:induction false} OnChunksCard(s: StreamingState, cs: seq<StreamChunk>, k: nat)
    requires WellShaped(s) && k < 3
    ensures |OnChunks(s, cs).agents| == 3
    ensures OnChunks(s, cs).agents[k] == CardAfter(s.agents[k], OfAgent(cs, AgentOrder[k]))
    decreases |cs|
  {
    OnChunksShape(s, cs);
    if cs != [] {
      var init := cs[..|cs| - 1];
      var c := cs[|cs| - 1];
      var a := AgentOrder[k];
      var mid := OnChunks(s, init);
      assert cs == init + [c];
      assert OnChunks(s, cs) == OnChunk(mid, c);
      OnChunksCard(s, init, k);
      OnChunksShape(s, init);
      OnChunkLocal(mid, c);
      OfAgentSnoc(init, c, a);
      if c.agentType == a {
        assert k == AgentIndex(c.agentType) by {
          assert k == 0 || k == 1 || k == 2;
        }
        assert OfAgent(cs, a) == OfAgent(init, a) + [c];
        CardAfterSnoc(s.agents[k], OfAgent(init, a), c);
        assert OnChunk(mid, c).agents[k] == ApplyChunk(mid.agents[k], c);
      } else {
        assert OfAgent(cs, a) == OfAgent(init, a);
        assert OnChunk(mid, c).agents[k] == mid.agents[k];
      }
    }
  }

  /** A run of persona `a` alone is all of `a`'s events. */
  lemma {:induction false} OfAgentOwn(cs: seq<StreamChunk>, a: AgentType)
    requires forall k :: 0 <= k < |cs| ==> cs[k].agentType == a
    ensures OfAgent(cs, a) == cs
    decreases |cs|
  {
    if cs != [] {
      OfAgentOwn(cs[..|cs| - 1], a);
    }
  }

  /** A run of another persona holds none of `a`'s events. */
  lemma {:induction false} OfAgentOther(cs: seq<StreamChunk>, a: AgentType)
    requires forall k :: 0 <= k < |cs| ==> cs[k].agentType != a
    ensures OfAgent(cs, a) == []
    decreases |cs|
  {
    if cs != [] {
      OfAgentOther(cs[..|cs| - 1], a);
    }
  }

  lemma {:induction false} OfAgentAppend(xs: seq<StreamChunk>, ys: seq<StreamChunk>, a: AgentType)
    ensures OfAgent(xs + ys, a) == OfAgent(xs, a) + OfAgent(ys, a)
    decreases |ys|
  {
    if ys == [] {
      assert xs + ys == xs;
    } else {
      assert (xs + ys)[..|xs + ys| - 1] == xs + ys[..|ys| - 1];
      OfAgentAppend(xs, ys[..|ys| - 1], a);
    }
  }

  /** The completed recipes of an interleaving are those of the three
      personas' own event sequences, in some order. */
  lemma {:induction false} CompletedSplits(cs: seq<StreamChunk>)
    ensures multiset(CompletedIn(cs)) == multiset(CompletedIn(OfAgent(cs, Classic)))
      + multiset(CompletedIn(OfAgent(cs, Fusion))) + multiset(CompletedIn(OfAgent(cs, Healthy)))
    decreases |cs|
  {
    if cs != [] {
      var init := cs[..|cs| - 1];
      var c := cs[|cs| - 1];
      assert cs == init + [c];
      CompletedSplits(init);
      CompletedInSnoc(init, c);
      assert multiset(CompletedIn(cs)) == multiset(CompletedIn(init)) + multiset(RecipeOf(c));
      CompletedOfAgentSnoc(init, c, Classic);
      CompletedOfAgentSnoc(init, c, Fusion);
      CompletedOfAgentSnoc(init, c, Healthy);
    }
  }

  /** One more event adds its recipe to its own persona's completed list. */
  lemma CompletedOfAgentSnoc(xs: seq<StreamChunk>, c: StreamChunk, a: AgentType)
    ensures multiset(CompletedIn(OfAgent(xs + [c], a)))
      == multiset(CompletedIn(OfAgent(xs, a))) + (if c.agentType == a then multiset(RecipeOf(c)) else multiset{})
  {
    OfAgentSnoc(xs, c, a);
    if c.agentType == a {
      CompletedInSnoc(OfAgent(xs, a), c);
    } else {
      assert OfAgent(xs, a) + [] == OfAgent(xs, a);
    }
  }

  /** One persona's run from any well-shaped state: its card ends at the
      terminal status with progress 100, and the run completes exactly the
      terminal event's recipe. */
  lemma RunOutcome(s: StreamingState, a: AgentType, fs: seq<string>, last: StreamChunk)
    requires WellShaped(s) && FinalChunk(a, last)
    ensures var card := CardAfter(s.agents[AgentIndex(a)], EventsAround(a, fs, last));
      card.status == Reported(last.status) && card.progress == 100.0
    ensures CompletedIn(EventsAround(a, fs, last)) == RecipeOf(last)
  {
    var run := EventsAround(a, fs, last);
    AgentStreamSettles(s, a, fs, last);
    OnChunksShape(s, run);
    OnChunksCard(s, run, AgentIndex(a));
    RunOwnEvents(a, fs, last);
  }

  /** A persona's run consists of that persona's events only. */
  lemma RunOwnEvents(a: AgentType, fs: seq<string>, last: StreamChunk)
    requires FinalChunk(a, last)
    ensures OfAgent(EventsAround(a, fs, last), a) == EventsAround(a, fs, last)
    ensures forall b :: b != a ==> OfAgent(EventsAround(a, fs, last), b) == []
  {
    EventsTerminalLast(a, fs, last);
    OfAgentOwn(EventsAround(a, fs, last), a);
    forall b | b != a
      ensures OfAgent(EventsAround(a, fs, last), b) == []
    {
      OfAgentOther(EventsAround(a, fs, last), b);
    }
  }

  /** Any interleaving of the three runs leaves every card settled at its
      persona's terminal status and progress 100, keeps the flags, and adds
      exactly the completed personas' recipes, in arrival order. */
  lemma InterleavedRunsSettle(s0: StreamingState, evs: seq<StreamChunk>, fss: seq<seq<string>>, lasts: seq<StreamChunk>)
    requires WellShaped(s0) && |fss| == 3 && |lasts| == 3
    requires forall k :: 0 <= k < 3 ==> FinalChunk(AgentOrder[k], lasts[k])
    requires Interleaves(evs, fss, lasts)
    ensures var r := OnChunks(s0, evs);
      WellShaped(r) && r.isStreaming == s0.isStreaming && r.isConnected == s0.isConnected && r.error == s0.error
      && (forall k :: 0 <= k < 3 ==> r.agents[k].status == Reported(lasts[k].status) && r.agents[k].progress == 100.0)
      && multiset(r.completedRecipes) == multiset(s0.completedRecipes + RecipeOf(lasts[0]) + RecipeOf(lasts[1]) + RecipeOf(lasts[2]))
  {
    OnChunksShape(s0, evs);
    forall k | 0 <= k < 3
      ensures OnChunks(s0, evs).agents[k].status == Reported(lasts[k].status)
      ensures OnChunks(s0, evs).agents[k].progress == 100.0
    {
      OnChunksCard(s0, evs, k);
      RunOutcome(s0, AgentOrder[k], fss[k], lasts[k]);
    }
    InterleavedCompleted(s0, evs, fss, lasts);
  }

  /** The completed recipes of an interleaving are the three terminal
      events' recipes, in some order. */
  lemma InterleavedCompleted(s0: StreamingState, evs: seq<StreamChunk>, fss: seq<seq<string>>, lasts: seq<StreamChunk>)
    requires WellShaped(s0) && |fss| == 3 && |lasts| == 3
    requires forall k :: 0 <= k < 3 ==> FinalChunk(AgentOrder[k], lasts[k])
    requires Interleaves(evs, fss, lasts)
    ensures multiset(CompletedIn(evs)) == multiset(RecipeOf(lasts[0]) + RecipeOf(lasts[1]) + RecipeOf(lasts[2]))
  {
    assert FinalChunk(Classic, lasts[0]) && FinalChunk(Fusion, lasts[1]) && FinalChunk(Healthy, lasts[2]);
    assert OfAgent(evs, Classic) == EventsAround(Classic, fss[0], lasts[0]);
    assert OfAgent(evs, Fusion) == EventsAround(Fusion, fss[1], lasts[1]);
    assert OfAgent(evs, Healthy) == EventsAround(Healthy, fss[2], lasts[2]);
    RunOutcome(s0, Classic, fss[0], lasts[0]);
    RunOutcome(s0, Fusion, fss[1], lasts[1]);
    RunOutcome(s0, Healthy, fss[2], lasts[2]);
    CompletedSplits(evs);
  }

  /** The serialised schedule, the three runs one after another, is one of
      the interleavings. */
  lemma ThreeRunsInterleave(fss: seq<seq<string>>, lasts: seq<StreamChunk>)
    requires |fss| == 3 && |lasts| == 3
    requires forall k :: 0 <= k < 3 ==> FinalChunk(AgentOrder[k], lasts[k])
    ensures Interleaves(ThreeRuns(fss, lasts), fss, lasts)
  {
    var e0 := EventsAround(Classic, fss[0], lasts[0]);
    var e1 := EventsAround(Fusion, fss[1], lasts[1]);
    var e2 := EventsAround(Healthy, fss[2], lasts[2]);
    assert FinalChunk(Classic, lasts[0]) && FinalChunk(Fusion, lasts[1]) && FinalChunk(Healthy, lasts[2]);
    RunOwnEvents(Classic, fss[0], lasts[0]);
    RunOwnEvents(Fusion, fss[1], lasts[1]);
    RunOwnEvents(Healthy, fss[2], lasts[2]);
    forall a: AgentType
      ensures OfAgent(e0 + e1 + e2, a) == OfAgent(e0, a) + OfAgent(e1, a) + OfAgent(e2, a)
    {
      OfAgentAppend(e0, e1, a);
      OfAgentAppend(e0 + e1, e2, a);
    }
    assert OfAgent(e0 + e1 + e2, Classic) == e0 + [] + [];
    assert OfAgent(e0 + e1 + e2, Fusion) == [] + e1 + [];
    assert OfAgent(e0 + e1 + e2, Healthy) == [] + [] + e2;
  }

  /** The hook's state, updated by its callbacks. */
  class StreamingRecipes {
    var state: StreamingState

    constructor()
      ensures state == InitialState
    {
      state := InitialState;
    }

    /** `connect`. */
    method Connect(succeeds: bool)
      modifies this
      ensures succeeds ==> state == old(state).(isConnected := true, error := None)
      ensures !succeeds ==> state == old(state).(isConnected := false, error := Some(ConnectFailedMessage))
    {
      if succeeds {
        state := state.(isConnected := true, error := None);
      } else {
        state := state.(isConnected := false, error := Some(ConnectFailedMessage));
      }
    }

    /** `generateRecipes`: the socket service's own connection flag decides,
        not `isConnected`; starting the request may throw. */
    method GenerateRecipes(serverConnected: bool, startThrows: bool)
      modifies this
      ensures !serverConnected ==> state == RefuseGeneration(old(state))
      ensures serverConnected && !startThrows ==> state == BeginGeneration(old(state))
      ensures serverConnected && startThrows ==> state == StartFailed(BeginGeneration(old(state)))
    {
      if !serverConnected {
        state := RefuseGeneration(state);
        return;
      }
      state := BeginGeneration(state);
      if startThrows {
        state := StartFailed(state);
      }
    }

    method HandleChunk(c: StreamChunk)
      modifies this
      ensures state == OnChunk(old(state), c)
    {
      state := OnChunk(state, c);
    }

    method HandleError(message: string)
      modifies this
      ensures state == OnError(old(state), message)
    {
      state := OnError(state, message);
    }

    method HandleComplete()
      modifies this
      ensures state == OnComplete(old(state))
    {
      state := OnComplete(state);
    }

    method ResetState()
      modifies this
      ensures state == Reset(old(state))
    {
      state := Reset(state);
    }
  }
}
