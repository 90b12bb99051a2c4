/** The agent graph: model node and tool node in turn, with a step limit, suspended by an unanswered
    approval or a crash in the tool node and resumed there from the saved state. */
module AgentLoop {
  import opened Values
  import opened ToolNode
  import I = IdempotencyStore

  datatype Message =
    | Human(text: string)
    | Model(content: string, calls: seq<ToolCall>)
    | Tool(answer: ToolMessage)

  datatype State = State(messages: seq<Message>, stepCount: int, finalAnswer: Option<string>, executed: set<string>)

  datatype Response = Response(content: string, calls: seq<ToolCall>)

  /** The model and everything else outside the graph, as arbitrary functions of the conversation. */
  datatype World = World(model: seq<Message> -> Response, env: (seq<Message>, nat) -> CallEnv)

  datatype GraphNode = AgentNode | ToolNode

  datatype Outcome = Finished | StepLimitExceeded | Suspended

  /** Where one invocation ends: the saved state, the durable records, how often the model was called and
      what the tool passes, the cut ones included, have sent. */
  datatype End = End(outcome: Outcome, state: State, keys: I.Table, modelCalls: nat, sent: seq<Sent>)

  // ---------------------------------------------------------------- the nodes

  function WithResponse(st: State, r: Response): State {
    State(st.messages + [Model(r.content, r.calls)], st.stepCount + 1,
          if r.calls == [] then Some(r.content) else st.finalAnswer, st.executed)
  }

  function PendingCalls(st: State): seq<ToolCall> {
    if st.messages != [] && st.messages[|st.messages| - 1].Model? then st.messages[|st.messages| - 1].calls else []
  }

  function Answers(messages: seq<ToolMessage>): seq<Message> {
    seq(|messages|, i requires 0 <= i < |messages| => Tool(messages[i]))
  }

  function Envs(st: State, w: World): (envs: seq<CallEnv>)
    ensures |envs| == |PendingCalls(st)|
  {
    var calls := PendingCalls(st);
    seq(|calls|, i requires 0 <= i < |calls| => w.env(st.messages, i))
  }

  function ToolPass(cfg: Settings, st: State, keys: I.Table, w: World): Progress {
    var calls := PendingCalls(st);
    Pass(cfg, keys, st.executed, calls, Envs(st, w), |calls|)
  }

  /** What a completed pass saves. */
  function AfterPass(st: State, p: Progress): State {
    st.(messages := st.messages + Answers(p.messages), executed := p.executed)
  }

  // ---------------------------------------------------------------- one invocation, and a whole run

  function Invoke(cfg: Settings, maxSteps: int, node: GraphNode, st: State, keys: I.Table, w: World): End
    decreases if maxSteps > st.stepCount then maxSteps - st.stepCount else 0, node.ToolNode?
  {
    match node
    case AgentNode =>
      if st.stepCount >= maxSteps then End(StepLimitExceeded, st, keys, 0, [])
      else
        var st' := WithResponse(st, w.model(st.messages));
        if PendingCalls(st') == [] then End(Finished, st', keys, 1, [])
        else
          var e := Invoke(cfg, maxSteps, ToolNode, st', keys, w);
          e.(modelCalls := e.modelCalls + 1)
    case ToolNode =>
      var p := ToolPass(cfg, st, keys, w);
      if p.cut then End(Suspended, st, p.keys, 0, p.sent)
      else
        var e := Invoke(cfg, maxSteps, AgentNode, AfterPass(st, p), p.keys, w);
        e.(sent := p.sent + e.sent)
  }

  /** A run: one invocation, then one resumption in the tool node per further world, for as long as the
      graph is suspended. */
  function Run(cfg: Settings, maxSteps: int, node: GraphNode, st: State, keys: I.Table, worlds: seq<World>): End
    requires worlds != []
    decreases |worlds|
  {
    var e := Invoke(cfg, maxSteps, node, st, keys, worlds[0]);
    if !e.outcome.Suspended? || |worlds| == 1 then e
    else
      var later := Run(cfg, maxSteps, ToolNode, e.state, e.keys, worlds[1..]);
      later.(modelCalls := e.modelCalls + later.modelCalls, sent := e.sent + later.sent)
  }

  // ---------------------------------------------------------------- how a run ends

  /** How an invocation or a whole run may end, for a start at `step`: it has called the model once per
      step and never beyond the limit; it ends with the last message as final answer, at the limit, or
      suspended before the tool node with calls to do. */
  ghost predicate EndsWell(e: End, step: int, maxSteps: int) {
    && e.state.stepCount == step + e.modelCalls
    && (e.modelCalls > 0 ==> e.state.stepCount <= maxSteps)
    && match e.outcome
       case Finished =>
         && PendingCalls(e.state) == []
         && e.state.messages != [] && e.state.messages[|e.state.messages| - 1].Model?
         && e.state.finalAnswer == Some(e.state.messages[|e.state.messages| - 1].content)
         && e.modelCalls > 0
       case StepLimitExceeded => e.state.stepCount >= maxSteps
       case Suspended => PendingCalls(e.state) != []
  }

  lemma OnlyCallsCut(cfg: Settings, st: State, keys: I.Table, w: World)
    requires ToolPass(cfg, st, keys, w).cut
    ensures PendingCalls(st) != []
  {
  }

  lemma {:induction false} InvocationEndsWell(cfg: Settings, maxSteps: int, node: GraphNode, st: State, keys: I.Table, w: World)
    ensures EndsWell(Invoke(cfg, maxSteps, node, st, keys, w), st.stepCount, maxSteps)
    decreases if maxSteps > st.stepCount then maxSteps - st.stepCount else 0, node.ToolNode?
  {
    hide ToolPass;
    match node
    case AgentNode =>
      if st.stepCount < maxSteps {
        var st' := WithResponse(st, w.model(st.messages));
        if PendingCalls(st') != [] {
          InvocationEndsWell(cfg, maxSteps, ToolNode, st', keys, w);
        }
      }
    case ToolNode =>
      var p := ToolPass(cfg, st, keys, w);
      if p.cut {
        OnlyCallsCut(cfg, st, keys, w);
      } else {
        InvocationEndsWell(cfg, maxSteps, AgentNode, AfterPass(st, p), p.keys, w);
      }
  }

  /** Whatever state the graph starts from and whatever the model, the tools, the humans and the crashes
      do, a run counts its model calls over all its resumptions, keeps to the limit, and ends in one of the
      three ways. */
  lemma {:induction false} RunEndsWell(cfg: Settings, maxSteps: int, node: GraphNode, st: State, keys: I.Table, worlds: seq<World>)
    requires worlds != []
    ensures EndsWell(Run(cfg, maxSteps, node, st, keys, worlds), st.stepCount, maxSteps)
    decreases |worlds|
  {
    InvocationEndsWell(cfg, maxSteps, node, st, keys, worlds[0]);
    hide Invoke;
    var e := Invoke(cfg, maxSteps, node, st, keys, worlds[0]);
    if e.outcome.Suspended? && |worlds| > 1 {
      RunEndsWell(cfg, maxSteps, ToolNode, e.state, e.keys, worlds[1..]);
    }
  }

  lemma ModelCallsAreBounded(cfg: Settings, maxSteps: int, node: GraphNode, st: State, keys: I.Table, worlds: seq<World>)
    requires worlds != []
    ensures var e := Run(cfg, maxSteps, node, st, keys, worlds);
            && e.modelCalls <= (if maxSteps > st.stepCount then maxSteps - st.stepCount else 0)
            && (e.outcome.StepLimitExceeded? && st.stepCount <= maxSteps ==> e.modelCalls == maxSteps - st.stepCount)
  {
    RunEndsWell(cfg, maxSteps, node, st, keys, worlds);
  }

  // ---------------------------------------------------------------- answered transcripts

  /** The call `j` of the model message at `i` has its own answer behind that message. */
  ghost predicate CallAnswered(messages: seq<Message>, i: nat, j: nat)
    requires i < |messages| && messages[i].Model? && j < |messages[i].calls|
  {
    && i + 1 + j < |messages|
    && messages[i + 1 + j].Tool?
    && messages[i + 1 + j].answer.callId == messages[i].calls[j].id
    && messages[i + 1 + j].answer.name == messages[i].calls[j].name
  }

  /** The answers to all calls of the message at `i` stand directly behind it, in order. */
  ghost predicate MessageAnswered(messages: seq<Message>, i: nat)
    requires i < |messages| && messages[i].Model?
  {
    forall j | 0 <= j < |messages[i].calls| :: CallAnswered(messages, i, j)
  }

  ghost predicate AllAnswered(messages: seq<Message>) {
    forall i | 0 <= i < |messages| && messages[i].Model? :: MessageAnswered(messages, i)
  }

  /** The messages before the one that the tool node is about to answer. */
  function Earlier(node: GraphNode, st: State): seq<Message> {
    if node.ToolNode? && PendingCalls(st) != [] then st.messages[..|st.messages| - 1] else st.messages
  }

  /** What a run that began behind `earlier` has made of the transcript: what follows begins with a model
      message, and of all model messages in it only the one before the tool node still waits. */
  ghost predicate Underway(node: GraphNode, st: State, earlier: seq<Message>) {
    && earlier <= st.messages
    && (|earlier| < |st.messages| ==> st.messages[|earlier|].Model?)
    && (node.ToolNode? && PendingCalls(st) != [] ==> |earlier| < |st.messages|)
    && (forall i | |earlier| <= i < |st.messages| && st.messages[i].Model? && !(node.ToolNode? && i == |st.messages| - 1) ::
          MessageAnswered(st.messages, i))
  }

  lemma AnswersStay(before: seq<Message>, after: seq<Message>, i: nat)
    requires before <= after && i < |before| && before[i].Model? && MessageAnswered(before, i)
    ensures MessageAnswered(after, i)
  {
    forall j | 0 <= j < |after[i].calls|
      ensures CallAnswered(after, i, j)
    {
      assert CallAnswered(before, i, j);
    }
  }

  lemma AskingIsUnderway(st: State, r: Response, earlier: seq<Message>)
    requires Underway(AgentNode, st, earlier)
    ensures Underway(ToolNode, WithResponse(st, r), earlier)
    ensures r.calls == [] ==> Underway(AgentNode, WithResponse(st, r), earlier)
  {
    var st' := WithResponse(st, r);
    assert st.messages <= st'.messages;
    forall i | |earlier| <= i < |st'.messages| - 1 && st'.messages[i].Model?
      ensures MessageAnswered(st'.messages, i)
    {
      AnswersStay(st.messages, st'.messages, i);
    }
  }

  /** A completed pass answers every call of the last message, directly behind it and in order. */
  lemma PassAnswersTheLast(cfg: Settings, st: State, keys: I.Table, w: World)
    requires PendingCalls(st) != [] && !ToolPass(cfg, st, keys, w).cut
    ensures MessageAnswered(AfterPass(st, ToolPass(cfg, st, keys, w)).messages, |st.messages| - 1)
  {
    hide Pass;
    MessagesAnswerCalls(cfg, keys, st.executed, PendingCalls(st), Envs(st, w), |PendingCalls(st)|);
    var p := ToolPass(cfg, st, keys, w);
    var after := AfterPass(st, p).messages;
    var last := |st.messages| - 1;
    forall j | 0 <= j < |after[last].calls|
      ensures CallAnswered(after, last, j)
    {
      assert after[last + 1 + j] == Answers(p.messages)[j];
    }
  }

  lemma AnsweringIsUnderway(cfg: Settings, st: State, keys: I.Table, w: World, earlier: seq<Message>)
    requires Underway(ToolNode, st, earlier) && !ToolPass(cfg, st, keys, w).cut
    ensures Underway(AgentNode, AfterPass(st, ToolPass(cfg, st, keys, w)), earlier)
  {
    var p := ToolPass(cfg, st, keys, w);
    var after := AfterPass(st, p).messages;
    PassLength(cfg, st, keys, w);
    if PendingCalls(st) != [] {
      PassAnswersTheLast(cfg, st, keys, w);
    }
    hide ToolPass;
    assert st.messages <= after;
    forall i | |st.messages| <= i < |after|
      ensures after[i].Tool?
    {
      assert after[i] == Answers(p.messages)[i - |st.messages|];
    }
    forall i | |earlier| <= i < |after| && after[i].Model?
      ensures MessageAnswered(after, i)
    {
      if i < |st.messages| - 1 {
        AnswersStay(st.messages, after, i);
      }
    }
  }

  lemma PassLength(cfg: Settings, st: State, keys: I.Table, w: World)
    requires !ToolPass(cfg, st, keys, w).cut
    ensures |ToolPass(cfg, st, keys, w).messages| == |PendingCalls(st)|
  {
    MessagesAnswerCalls(cfg, keys, st.executed, PendingCalls(st), Envs(st, w), |PendingCalls(st)|);
  }

  /** The node in front of which an invocation stops. */
  function StopsBefore(outcome: Outcome): GraphNode {
    if outcome.Suspended? then ToolNode else AgentNode
  }

  lemma {:induction false} InvocationStaysUnderway(cfg: Settings, maxSteps: int, node: GraphNode, st: State, keys: I.Table,
                                                   w: World, earlier: seq<Message>)
    requires Underway(node, st, earlier)
    ensures var e := Invoke(cfg, maxSteps, node, st, keys, w);
            Underway(StopsBefore(e.outcome), e.state, earlier)
    decreases if maxSteps > st.stepCount then maxSteps - st.stepCount else 0, node.ToolNode?
  {
    hide ToolPass, Underway;
    match node
    case AgentNode =>
      if st.stepCount < maxSteps {
        var r := w.model(st.messages);
        var st' := WithResponse(st, r);
        AskingIsUnderway(st, r, earlier);
        if PendingCalls(st') != [] {
          InvocationStaysUnderway(cfg, maxSteps, ToolNode, st', keys, w, earlier);
        }
      }
    case ToolNode =>
      var p := ToolPass(cfg, st, keys, w);
      if !p.cut {
        AnsweringIsUnderway(cfg, st, keys, w, earlier);
        InvocationStaysUnderway(cfg, maxSteps, AgentNode, AfterPass(st, p), p.keys, w, earlier);
      }
  }

  lemma {:induction false} RunStaysUnderway(cfg: Settings, maxSteps: int, node: GraphNode, st: State, keys: I.Table,
                                            worlds: seq<World>, earlier: seq<Message>)
    requires worlds != [] && Underway(node, st, earlier)
    ensures var e := Run(cfg, maxSteps, node, st, keys, worlds);
            Underway(StopsBefore(e.outcome), e.state, earlier)
    decreases |worlds|
  {
    hide Invoke, Underway;
    InvocationStaysUnderway(cfg, maxSteps, node, st, keys, worlds[0], earlier);
    var e := Invoke(cfg, maxSteps, node, st, keys, worlds[0]);
    if e.outcome.Suspended? && |worlds| > 1 {
      RunStaysUnderway(cfg, maxSteps, ToolNode, e.state, e.keys, worlds[1..], earlier);
    }
  }

  /** A message that was not fully answered when the next model message came never will be: that message
      stands where the first missing answer would have to. */
  lemma LateAnswersDoNotCount(earlier: seq<Message>, messages: seq<Message>, i: nat)
    requires earlier <= messages && (|earlier| < |messages| ==> messages[|earlier|].Model?)
    requires i < |earlier| && earlier[i].Model?
    ensures MessageAnswered(messages, i) <==> MessageAnswered(earlier, i)
  {
    if MessageAnswered(earlier, i) {
      AnswersStay(earlier, messages, i);
    } else {
      var j :| 0 <= j < |earlier[i].calls| && !CallAnswered(earlier, i, j);
      if i + 1 + j < |earlier| {
        assert !CallAnswered(messages, i, j);
      } else {
        assert !CallAnswered(messages, i, |earlier| - i - 1);
      }
    }
  }

  /** Exactly which messages a run leaves answered: every model message of the run itself, but for the one
      it is suspended at, and of the messages it started with those that were answered before it began. */
  lemma TranscriptIsExact(cfg: Settings, maxSteps: int, node: GraphNode, st: State, keys: I.Table, worlds: seq<World>)
    requires worlds != []
    ensures var e := Run(cfg, maxSteps, node, st, keys, worlds);
            var messages := e.state.messages;
            var earlier := Earlier(node, st);
            && earlier <= messages
            && forall i | 0 <= i < |messages| && messages[i].Model? ::
                 MessageAnswered(messages, i)
                 <==> if i < |earlier| then MessageAnswered(earlier, i) else !(e.outcome.Suspended? && i == |messages| - 1)
  {
    hide Run;
    var e := Run(cfg, maxSteps, node, st, keys, worlds);
    var messages := e.state.messages;
    var earlier := Earlier(node, st);
    RunStaysUnderway(cfg, maxSteps, node, st, keys, worlds, earlier);
    RunEndsWell(cfg, maxSteps, node, st, keys, worlds);
    forall i | 0 <= i < |messages| && messages[i].Model?
      ensures MessageAnswered(messages, i)
              <==> if i < |earlier| then MessageAnswered(earlier, i) else !(e.outcome.Suspended? && i == |messages| - 1)
    {
      if i < |earlier| {
        LateAnswersDoNotCount(earlier, messages, i);
      } else if e.outcome.Suspended? && i == |messages| - 1 {
        assert !CallAnswered(messages, i, 0);
      }
    }
  }

  /** So a run that is not suspended leaves every call answered if and only if its start did, apart from
      the message that it was resumed at. */
  lemma AllAnsweredIffAtStart(cfg: Settings, maxSteps: int, node: GraphNode, st: State, keys: I.Table, worlds: seq<World>)
    requires worlds != []
    requires !Run(cfg, maxSteps, node, st, keys, worlds).outcome.Suspended?
    ensures AllAnswered(Run(cfg, maxSteps, node, st, keys, worlds).state.messages) <==> AllAnswered(Earlier(node, st))
  {
    hide Run, MessageAnswered;
    TranscriptIsExact(cfg, maxSteps, node, st, keys, worlds);
    var messages := Run(cfg, maxSteps, node, st, keys, worlds).state.messages;
    var earlier := Earlier(node, st);
    if AllAnswered(messages) {
      forall i | 0 <= i < |earlier| && earlier[i].Model?
        ensures MessageAnswered(earlier, i)
      {
        assert MessageAnswered(messages, i);
      }
    }
  }

  // ---------------------------------------------------------------- whose calls are sent

  /** The call at `index` of the model message at `i`, but for arguments that a human has replaced. */
  ghost predicate IsCallOf(sent: Sent, messages: seq<Message>, i: nat) {
    && i < |messages| && messages[i].Model? && sent.index < |messages[i].calls|
    && sent.call.id == messages[i].calls[sent.index].id
    && sent.call.name == messages[i].calls[sent.index].name
  }

  ghost predicate IsCallFrom(sent: Sent, messages: seq<Message>, start: nat) {
    exists i: nat :: start <= i && IsCallOf(sent, messages, i)
  }

  ghost predicate SentFrom(sent: seq<Sent>, messages: seq<Message>, start: nat) {
    forall k | 0 <= k < |sent| :: IsCallFrom(sent[k], messages, start)
  }

  lemma SentStays(sent: seq<Sent>, before: seq<Message>, after: seq<Message>, start: nat)
    requires SentFrom(sent, before, start) && before <= after
    ensures SentFrom(sent, after, start)
  {
    forall k | 0 <= k < |sent|
      ensures IsCallFrom(sent[k], after, start)
    {
      assert IsCallFrom(sent[k], before, start);
      var i: nat :| start <= i && IsCallOf(sent[k], before, i);
      assert IsCallOf(sent[k], after, i);
    }
  }

  lemma PassSendsTheLast(cfg: Settings, st: State, keys: I.Table, w: World, earlier: seq<Message>)
    requires Underway(ToolNode, st, earlier)
    ensures SentFrom(ToolPass(cfg, st, keys, w).sent, st.messages, |earlier|)
  {
    hide Pass;
    DispatchesAreJustified(cfg, keys, st.executed, PendingCalls(st), Envs(st, w), |PendingCalls(st)|);
    var sent := ToolPass(cfg, st, keys, w).sent;
    forall k | 0 <= k < |sent|
      ensures IsCallFrom(sent[k], st.messages, |earlier|)
    {
      assert IsCallOf(sent[k], st.messages, |st.messages| - 1);
    }
  }

  lemma {:induction false} InvocationSendsItsOwn(cfg: Settings, maxSteps: int, node: GraphNode, st: State, keys: I.Table,
                                                 w: World, earlier: seq<Message>)
    requires Underway(node, st, earlier)
    ensures var e := Invoke(cfg, maxSteps, node, st, keys, w);
            st.messages <= e.state.messages && SentFrom(e.sent, e.state.messages, |earlier|)
    decreases if maxSteps > st.stepCount then maxSteps - st.stepCount else 0, node.ToolNode?
  {
    hide ToolPass, Underway, IsCallFrom;
    match node
    case AgentNode =>
      if st.stepCount < maxSteps {
        var r := w.model(st.messages);
        var st' := WithResponse(st, r);
        AskingIsUnderway(st, r, earlier);
        if PendingCalls(st') != [] {
          InvocationSendsItsOwn(cfg, maxSteps, ToolNode, st', keys, w, earlier);
        }
      }
    case ToolNode =>
      var p := ToolPass(cfg, st, keys, w);
      PassSendsTheLast(cfg, st, keys, w, earlier);
      if !p.cut {
        AnsweringIsUnderway(cfg, st, keys, w, earlier);
        InvocationSendsItsOwn(cfg, maxSteps, AgentNode, AfterPass(st, p), p.keys, w, earlier);
        var e := Invoke(cfg, maxSteps, AgentNode, AfterPass(st, p), p.keys, w);
        SentStays(p.sent, st.messages, e.state.messages, |earlier|);
      }
  }

  lemma {:induction false} RunSendsItsOwn(cfg: Settings, maxSteps: int, node: GraphNode, st: State, keys: I.Table,
                                          worlds: seq<World>, earlier: seq<Message>)
    requires worlds != [] && Underway(node, st, earlier)
    ensures var e := Run(cfg, maxSteps, node, st, keys, worlds);
            st.messages <= e.state.messages && SentFrom(e.sent, e.state.messages, |earlier|)
    decreases |worlds|
  {
    hide Invoke, Underway, IsCallFrom;
    InvocationStaysUnderway(cfg, maxSteps, node, st, keys, worlds[0], earlier);
    InvocationSendsItsOwn(cfg, maxSteps, node, st, keys, worlds[0], earlier);
    var e := Invoke(cfg, maxSteps, node, st, keys, worlds[0]);
    if e.outcome.Suspended? && |worlds| > 1 {
      RunSendsItsOwn(cfg, maxSteps, ToolNode, e.state, e.keys, worlds[1..], earlier);
      var later := Run(cfg, maxSteps, ToolNode, e.state, e.keys, worlds[1..]);
      SentStays(e.sent, e.state.messages, later.state.messages, |earlier|);
    }
  }

  /** A run sends only calls of the message it is resumed at and of model messages that it adds itself: a
      call proposed before its start is never run. */
  lemma OnlyOwnCallsAreSent(cfg: Settings, maxSteps: int, node: GraphNode, st: State, keys: I.Table, worlds: seq<World>)
    requires worlds != []
    ensures var e := Run(cfg, maxSteps, node, st, keys, worlds);
            SentFrom(e.sent, e.state.messages, |Earlier(node, st)|)
  {
    hide Run;
    RunSendsItsOwn(cfg, maxSteps, node, st, keys, worlds, Earlier(node, st));
  }

  // ---------------------------------------------------------------- whose words they are

  /** The model message at `i` is what the model said, in one of the worlds, to the messages before it. */
  ghost predicate SaidIn(worlds: seq<World>, messages: seq<Message>, i: nat)
    requires i < |messages| && messages[i].Model?
  {
    exists k | 0 <= k < |worlds| ::
      var r := worlds[k].model(messages[..i]);
      messages[i].content == r.content && messages[i].calls == r.calls
  }

  ghost predicate AllSaid(worlds: seq<World>, messages: seq<Message>, start: nat) {
    forall i | start <= i < |messages| && messages[i].Model? :: SaidIn(worlds, messages, i)
  }

  lemma SaidStays(worlds: seq<World>, more: seq<World>, before: seq<Message>, after: seq<Message>, start: nat)
    requires AllSaid(worlds, before, start) && before <= after && worlds <= more
    requires forall i | |before| <= i < |after| && after[i].Model? :: SaidIn(more, after, i)
    ensures AllSaid(more, after, start)
  {
    forall i | start <= i < |after| && after[i].Model?
      ensures SaidIn(more, after, i)
    {
      if i < |before| {
        assert SaidIn(worlds, before, i);
        var k :| 0 <= k < |worlds| && before[i].content == worlds[k].model(before[..i]).content
                 && before[i].calls == worlds[k].model(before[..i]).calls;
        assert before[..i] == after[..i] && more[k] == worlds[k];
      }
    }
  }

  lemma SaidByTheModel(st: State, w: World, start: nat)
    requires AllSaid([w], st.messages, start)
    ensures AllSaid([w], WithResponse(st, w.model(st.messages)).messages, start)
  {
    var after := WithResponse(st, w.model(st.messages)).messages;
    assert after[..|st.messages|] == st.messages;
    assert [w][0] == w;
    SaidStays([w], [w], st.messages, after, start);
  }

  lemma ToolsSayNothing(st: State, p: Progress, w: World, start: nat)
    requires AllSaid([w], st.messages, start)
    ensures AllSaid([w], AfterPass(st, p).messages, start)
  {
    var after := AfterPass(st, p).messages;
    forall i | |st.messages| <= i < |after|
      ensures after[i].Tool?
    {
      assert after[i] == Answers(p.messages)[i - |st.messages|];
    }
    SaidStays([w], [w], st.messages, after, start);
  }

  lemma {:induction false} InvocationIsSaid(cfg: Settings, maxSteps: int, node: GraphNode, st: State, keys: I.Table, w: World, start: nat)
    requires AllSaid([w], st.messages, start)
    ensures AllSaid([w], Invoke(cfg, maxSteps, node, st, keys, w).state.messages, start)
    decreases if maxSteps > st.stepCount then maxSteps - st.stepCount else 0, node.ToolNode?
  {
    hide ToolPass, AllSaid;
    match node
    case AgentNode =>
      if st.stepCount < maxSteps {
        var st' := WithResponse(st, w.model(st.messages));
        SaidByTheModel(st, w, start);
        if PendingCalls(st') != [] {
          InvocationIsSaid(cfg, maxSteps, ToolNode, st', keys, w, start);
        }
      }
    case ToolNode =>
      var p := ToolPass(cfg, st, keys, w);
      if !p.cut {
        ToolsSayNothing(st, p, w, start);
        InvocationIsSaid(cfg, maxSteps, AgentNode, AfterPass(st, p), p.keys, w, start);
      }
  }

  /** The transcript only grows, and every model message that a run adds, the final answer included, is what
      the model said to the messages before it: content and calls. */
  lemma {:induction false} RunIsSaid(cfg: Settings, maxSteps: int, node: GraphNode, st: State, keys: I.Table, worlds: seq<World>)
    requires worlds != []
    ensures var messages := Run(cfg, maxSteps, node, st, keys, worlds).state.messages;
            st.messages <= messages && AllSaid(worlds, messages, |st.messages|)
    decreases |worlds|
  {
    hide Invoke, SaidIn;
    var w := worlds[0];
    var e := Invoke(cfg, maxSteps, node, st, keys, w);
    InvocationIsSaid(cfg, maxSteps, node, st, keys, w, |st.messages|);
    InvocationGrows(cfg, maxSteps, node, st, keys, w);
    if e.outcome.Suspended? && |worlds| > 1 {
      RunIsSaid(cfg, maxSteps, ToolNode, e.state, e.keys, worlds[1..]);
      var after := Run(cfg, maxSteps, ToolNode, e.state, e.keys, worlds[1..]).state.messages;
      forall i | |e.state.messages| <= i < |after| && after[i].Model?
        ensures SaidIn(worlds, after, i)
      {
        LaterWorld(worlds, after, i);
      }
      SaidStays([w], worlds, e.state.messages, after, |st.messages|);
    } else {
      SaidStays([w], worlds, e.state.messages, e.state.messages, |st.messages|);
    }
  }

  lemma LaterWorld(worlds: seq<World>, messages: seq<Message>, i: nat)
    requires worlds != [] && i < |messages| && messages[i].Model? && SaidIn(worlds[1..], messages, i)
    ensures SaidIn(worlds, messages, i)
  {
    var k :| 0 <= k < |worlds[1..]| && messages[i].content == worlds[1..][k].model(messages[..i]).content
             && messages[i].calls == worlds[1..][k].model(messages[..i]).calls;
    assert worlds[k + 1] == worlds[1..][k];
  }

  lemma {:induction false} InvocationGrows(cfg: Settings, maxSteps: int, node: GraphNode, st: State, keys: I.Table, w: World)
    ensures st.messages <= Invoke(cfg, maxSteps, node, st, keys, w).state.messages
    decreases if maxSteps > st.stepCount then maxSteps - st.stepCount else 0, node.ToolNode?
  {
    hide ToolPass;
    match node
    case AgentNode =>
      if st.stepCount < maxSteps {
        var st' := WithResponse(st, w.model(st.messages));
        if PendingCalls(st') != [] {
          InvocationGrows(cfg, maxSteps, ToolNode, st', keys, w);
        }
      }
    case ToolNode =>
      var p := ToolPass(cfg, st, keys, w);
      if !p.cut {
        InvocationGrows(cfg, maxSteps, AgentNode, AfterPass(st, p), p.keys, w);
      }
  }

  // ---------------------------------------------------------------- what a pass leaves behind

  /** A completed pass saves its messages as they are and what it has executed, and nothing else; a cut one
      saves nothing, so the replay starts from the very state the pass started from. */
  lemma PassIsSavedWholeOrNotAtAll(cfg: Settings, maxSteps: int, st: State, keys: I.Table, w: World)
    ensures var p := ToolPass(cfg, st, keys, w);
            var after := AfterPass(st, p);
            && |after.messages| == |st.messages| + |p.messages| && after.messages[..|st.messages|] == st.messages
            && (forall i | 0 <= i < |p.messages| :: after.messages[|st.messages| + i] == Tool(p.messages[i]))
            && after.executed == p.executed && after.stepCount == st.stepCount && after.finalAnswer == st.finalAnswer
            && (p.cut ==>
                  var e := Invoke(cfg, maxSteps, ToolNode, st, keys, w);
                  e.outcome.Suspended? && e.state == st && e.keys == p.keys && e.sent == p.sent && e.modelCalls == 0)
  {
    hide ToolPass;
  }

  lemma {:induction false} InvocationKeepsAnswer(cfg: Settings, maxSteps: int, node: GraphNode, st: State, keys: I.Table, w: World)
    ensures var e := Invoke(cfg, maxSteps, node, st, keys, w);
            !e.outcome.Finished? ==> e.state.finalAnswer == st.finalAnswer
    decreases if maxSteps > st.stepCount then maxSteps - st.stepCount else 0, node.ToolNode?
  {
    hide ToolPass;
    match node
    case AgentNode =>
      if st.stepCount < maxSteps {
        var st' := WithResponse(st, w.model(st.messages));
        if PendingCalls(st') != [] {
          InvocationKeepsAnswer(cfg, maxSteps, ToolNode, st', keys, w);
        }
      }
    case ToolNode =>
      var p := ToolPass(cfg, st, keys, w);
      if !p.cut {
        InvocationKeepsAnswer(cfg, maxSteps, AgentNode, AfterPass(st, p), p.keys, w);
      }
  }

  /** Only a run that finishes has a new final answer: what the model says beside its calls never is one. */
  lemma {:induction false} UnfinishedRunHasNoAnswer(cfg: Settings, maxSteps: int, node: GraphNode, st: State, keys: I.Table,
                                                    worlds: seq<World>)
    requires worlds != []
    ensures var e := Run(cfg, maxSteps, node, st, keys, worlds);
            !e.outcome.Finished? ==> e.state.finalAnswer == st.finalAnswer
    decreases |worlds|
  {
    hide Invoke;
    InvocationKeepsAnswer(cfg, maxSteps, node, st, keys, worlds[0]);
    var e := Invoke(cfg, maxSteps, node, st, keys, worlds[0]);
    if e.outcome.Suspended? && |worlds| > 1 {
      UnfinishedRunHasNoAnswer(cfg, maxSteps, ToolNode, e.state, e.keys, worlds[1..]);
    }
  }

  // ---------------------------------------------------------------- no id twice

  /** No non-empty id is sent twice, none that was executed before, and each that was sent is remembered. */
  ghost predicate SentOnce(sent: seq<Sent>, before: set<string>) {
    && (forall k | 0 <= k < |sent| :: sent[k].call.id == "" || sent[k].call.id !in before)
    && (forall j, k | 0 <= j < k < |sent| :: sent[j].call.id == sent[k].call.id ==> sent[j].call.id == "")
  }

  lemma PassSendsOnce(cfg: Settings, st: State, keys: I.Table, w: World)
    ensures var p := ToolPass(cfg, st, keys, w);
            && SentOnce(p.sent, st.executed) && st.executed <= p.executed
            && (!p.cut ==> forall k | 0 <= k < |p.sent| :: p.sent[k].call.id != "" ==> p.sent[k].call.id in p.executed)
  {
    hide Pass;
    DispatchesAreJustified(cfg, keys, st.executed, PendingCalls(st), Envs(st, w), |PendingCalls(st)|);
  }

  /** Within one invocation, over all its passes, no non-empty call id is sent twice, and none that the
      state it starts from already names as executed.  Only a suspension forgets what a cut pass has sent. */
  lemma {:induction false} InvocationSendsOnce(cfg: Settings, maxSteps: int, node: GraphNode, st: State, keys: I.Table, w: World)
    ensures SentOnce(Invoke(cfg, maxSteps, node, st, keys, w).sent, st.executed)
    decreases if maxSteps > st.stepCount then maxSteps - st.stepCount else 0, node.ToolNode?
  {
    hide ToolPass;
    match node
    case AgentNode =>
      if st.stepCount < maxSteps {
        var st' := WithResponse(st, w.model(st.messages));
        if PendingCalls(st') != [] {
          InvocationSendsOnce(cfg, maxSteps, ToolNode, st', keys, w);
        }
      }
    case ToolNode =>
      var p := ToolPass(cfg, st, keys, w);
      PassSendsOnce(cfg, st, keys, w);
      if !p.cut {
        InvocationSendsOnce(cfg, maxSteps, AgentNode, AfterPass(st, p), p.keys, w);
      }
  }

  // ---------------------------------------------------------------- a start with calls to do

  /** The state in which the transfer workflow starts the graph: the user's message and the model's first
      response, which may already ask for tools. */
  function TransferStart(text: string, first: Response): State {
    State([Human(text), Model(first.content, first.calls)], 1, None, {})
  }

  /** The graph begins with the model node, so calls of that first response are never run.  A model that
      then simply answers finishes the run; nothing has been sent, and the calls stay unanswered. */
  lemma FirstCallsAreDropped(cfg: Settings, maxSteps: int, text: string, first: Response, keys: I.Table, worlds: seq<World>)
    requires worlds != [] && maxSteps > 1 && first.calls != []
    requires worlds[0].model(TransferStart(text, first).messages).calls == []
    ensures var e := Run(cfg, maxSteps, AgentNode, TransferStart(text, first), keys, worlds);
            e.outcome.Finished? && e.sent == [] && e.keys == keys && !AllAnswered(e.state.messages)
  {
    var st := TransferStart(text, first);
    AllAnsweredIffAtStart(cfg, maxSteps, AgentNode, st, keys, worlds);
    assert !CallAnswered(st.messages, 1, 0);
    assert !MessageAnswered(st.messages, 1);
    assert PendingCalls(WithResponse(st, worlds[0].model(st.messages))) == [];
  }
}
