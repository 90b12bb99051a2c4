/** The dispatches of whole agent runs: the tool passes of every invocation, with the executor's turns
    between the invocations, make up one history of the durable records. */
module AgentDispatch {
  import opened Values
  import opened ToolNode
  import opened DispatchBound
  import A = AgentLoop
  import I = IdempotencyStore

  // ---------------------------------------------------------------- the turns of a run

  /** The tool pass of one visit to the tool node, as a turn. */
  function PassTurn(cfg: Settings, st: A.State, w: A.World): Turn {
    GraphPass(cfg, st.executed, A.PendingCalls(st), A.Envs(st, w))
  }

  /** The turns that one invocation takes, in order. */
  function InvocationTurns(cfg: Settings, maxSteps: int, node: A.GraphNode, st: A.State, keys: I.Table, w: A.World): seq<Turn>
    decreases if maxSteps > st.stepCount then maxSteps - st.stepCount else 0, node.ToolNode?
  {
    match node
    case AgentNode =>
      if st.stepCount >= maxSteps then []
      else
        var st' := A.WithResponse(st, w.model(st.messages));
        if A.PendingCalls(st') == [] then [] else InvocationTurns(cfg, maxSteps, A.ToolNode, st', keys, w)
    case ToolNode =>
      var p := A.ToolPass(cfg, st, keys, w);
      [PassTurn(cfg, st, w)]
      + if p.cut then [] else InvocationTurns(cfg, maxSteps, A.AgentNode, A.AfterPass(st, p), p.keys, w)
  }

  /** What happens from one invocation of the graph to the next: the turns that the executor takes
      meanwhile, and the world in which the graph is then invoked. */
  datatype Episode = Episode(meanwhile: seq<Turn>, world: A.World)

  /** A run with the executor's turns between its invocations, and the history it makes. */
  function Life(cfg: Settings, maxSteps: int, node: A.GraphNode, st: A.State, h: History, episodes: seq<Episode>): (A.End, History)
    requires episodes != []
    decreases |episodes|
  {
    var met := AfterTurns(h, episodes[0].meanwhile);
    var e := A.Invoke(cfg, maxSteps, node, st, met.keys, episodes[0].world);
    var left := History(e.keys, met.dispatched + Keys(cfg, e.sent));
    if !e.outcome.Suspended? || |episodes| == 1 then (e, left)
    else Life(cfg, maxSteps, A.ToolNode, e.state, left, episodes[1..])
  }

  function LifeTurns(cfg: Settings, maxSteps: int, node: A.GraphNode, st: A.State, h: History, episodes: seq<Episode>): seq<Turn>
    requires episodes != []
    decreases |episodes|
  {
    var met := AfterTurns(h, episodes[0].meanwhile);
    var e := A.Invoke(cfg, maxSteps, node, st, met.keys, episodes[0].world);
    var left := History(e.keys, met.dispatched + Keys(cfg, e.sent));
    var turns := episodes[0].meanwhile + InvocationTurns(cfg, maxSteps, node, st, met.keys, episodes[0].world);
    if !e.outcome.Suspended? || |episodes| == 1 then turns
    else turns + LifeTurns(cfg, maxSteps, A.ToolNode, e.state, left, episodes[1..])
  }

  // ---------------------------------------------------------------- they make up a history

  lemma {:induction false} TurnsConcat(h: History, first: seq<Turn>, second: seq<Turn>)
    ensures AfterTurns(h, first + second) == AfterTurns(AfterTurns(h, first), second)
    decreases |second|
  {
    hide AfterTurn;
    if second == [] {
      assert first + second == first;
    } else {
      var fewer := second[..|second| - 1];
      assert (first + second)[..|first + second| - 1] == first + fewer;
      TurnsConcat(h, first, fewer);
    }
  }

  lemma {:induction false} KeysConcat(cfg: Settings, first: seq<Sent>, second: seq<Sent>)
    ensures Keys(cfg, first + second) == Keys(cfg, first) + Keys(cfg, second)
    decreases |second|
  {
    if second == [] {
      assert first + second == first;
    } else {
      var fewer := second[..|second| - 1];
      assert (first + second)[..|first + second| - 1] == first + fewer;
      KeysConcat(cfg, first, fewer);
    }
  }

  lemma OneTurn(h: History, turn: Turn)
    ensures AfterTurns(h, [turn]) == AfterTurn(h, turn)
  {
    hide AfterTurn;
    assert [turn][..0] == [];
  }

  lemma PassIsATurn(cfg: Settings, st: A.State, keys: I.Table, w: A.World, dispatched: seq<string>)
    ensures var p := A.ToolPass(cfg, st, keys, w);
            AfterTurns(History(keys, dispatched), [PassTurn(cfg, st, w)]) == History(p.keys, dispatched + Keys(cfg, p.sent))
  {
    hide Pass;
    OneTurn(History(keys, dispatched), PassTurn(cfg, st, w));
  }

  /** The tool passes of an invocation, as turns, leave the records it leaves and dispatch what it sends. */
  lemma {:induction false} InvocationIsAHistory(cfg: Settings, maxSteps: int, node: A.GraphNode, st: A.State, keys: I.Table,
                                                w: A.World, dispatched: seq<string>)
    ensures var e := A.Invoke(cfg, maxSteps, node, st, keys, w);
            AfterTurns(History(keys, dispatched), InvocationTurns(cfg, maxSteps, node, st, keys, w))
            == History(e.keys, dispatched + Keys(cfg, e.sent))
    decreases if maxSteps > st.stepCount then maxSteps - st.stepCount else 0, node.ToolNode?
  {
    hide A.ToolPass, PassTurn;
    match node
    case AgentNode =>
      if st.stepCount < maxSteps {
        var st' := A.WithResponse(st, w.model(st.messages));
        if A.PendingCalls(st') != [] {
          InvocationIsAHistory(cfg, maxSteps, A.ToolNode, st', keys, w, dispatched);
        }
      }
    case ToolNode =>
      var p := A.ToolPass(cfg, st, keys, w);
      var turn := PassTurn(cfg, st, w);
      PassIsATurn(cfg, st, keys, w, dispatched);
      if !p.cut {
        var saved := A.AfterPass(st, p);
        var rest := InvocationTurns(cfg, maxSteps, A.AgentNode, saved, p.keys, w);
        var e := A.Invoke(cfg, maxSteps, A.AgentNode, saved, p.keys, w);
        InvocationIsAHistory(cfg, maxSteps, A.AgentNode, saved, p.keys, w, dispatched + Keys(cfg, p.sent));
        TurnThenRest(cfg, History(keys, dispatched), turn, rest, p, e.keys, e.sent);
      }
      hide AfterTurns, Keys;
  }

  lemma TurnThenRest(cfg: Settings, h: History, turn: Turn, rest: seq<Turn>, p: Progress, keys: I.Table, sent: seq<Sent>)
    requires AfterTurns(h, [turn]) == History(p.keys, h.dispatched + Keys(cfg, p.sent))
    requires AfterTurns(History(p.keys, h.dispatched + Keys(cfg, p.sent)), rest)
             == History(keys, h.dispatched + Keys(cfg, p.sent) + Keys(cfg, sent))
    ensures AfterTurns(h, [turn] + rest) == History(keys, h.dispatched + Keys(cfg, p.sent + sent))
  {
    hide AfterTurns, Keys;
    TurnsConcat(h, [turn], rest);
    KeysConcat(cfg, p.sent, sent);
    ConcatAssociates(h.dispatched, Keys(cfg, p.sent), Keys(cfg, sent));
  }

  lemma ConcatAssociates(a: seq<string>, b: seq<string>, c: seq<string>)
    ensures a + b + c == a + (b + c)
  {
  }

  /** So a whole run with the executor's turns in between is a history of turns. */
  lemma {:induction false} LifeIsAHistory(cfg: Settings, maxSteps: int, node: A.GraphNode, st: A.State, h: History,
                                          episodes: seq<Episode>)
    requires episodes != []
    ensures Life(cfg, maxSteps, node, st, h, episodes).1 == AfterTurns(h, LifeTurns(cfg, maxSteps, node, st, h, episodes))
    decreases |episodes|
  {
    hide A.Invoke, InvocationTurns;
    var met := AfterTurns(h, episodes[0].meanwhile);
    var e := A.Invoke(cfg, maxSteps, node, st, met.keys, episodes[0].world);
    var left := History(e.keys, met.dispatched + Keys(cfg, e.sent));
    var own := InvocationTurns(cfg, maxSteps, node, st, met.keys, episodes[0].world);
    TurnsConcat(h, episodes[0].meanwhile, own);
    InvocationIsAHistory(cfg, maxSteps, node, st, met.keys, episodes[0].world, met.dispatched);
    if e.outcome.Suspended? && |episodes| > 1 {
      TurnsConcat(h, episodes[0].meanwhile + own, LifeTurns(cfg, maxSteps, A.ToolNode, e.state, left, episodes[1..]));
      LifeIsAHistory(cfg, maxSteps, A.ToolNode, e.state, left, episodes[1..]);
    }
  }

  /** Over a whole agent run, with any number of suspensions, crashes and executor turns between them, a
      side-effecting key is dispatched at most twice unless a dispatch of it was recorded as failed. */
  lemma AgentDispatchesAtMostTwice(cfg: Settings, maxSteps: int, st: A.State, episodes: seq<Episode>, key: string)
    requires episodes != []
    requires AllSideEffecting(LifeTurns(cfg, maxSteps, A.AgentNode, st, History(map[], []), episodes), key)
    ensures var h := Life(cfg, maxSteps, A.AgentNode, st, History(map[], []), episodes).1;
            FailedKey(h.keys, key) || Count(h.dispatched, key) <= 2
  {
    hide FailedKey, Count;
    LifeIsAHistory(cfg, maxSteps, A.AgentNode, st, History(map[], []), episodes);
    AtMostTwoDispatches(LifeTurns(cfg, maxSteps, A.AgentNode, st, History(map[], []), episodes), key);
  }

  /** Without executor turns it is the run of the agent loop. */
  lemma {:induction false} LifeAloneIsTheRun(cfg: Settings, maxSteps: int, node: A.GraphNode, st: A.State, h: History, worlds: seq<A.World>)
    requires worlds != []
    ensures var e := A.Run(cfg, maxSteps, node, st, h.keys, worlds);
            var episodes := seq(|worlds|, i requires 0 <= i < |worlds| => Episode([], worlds[i]));
            && Life(cfg, maxSteps, node, st, h, episodes).1 == History(e.keys, h.dispatched + Keys(cfg, e.sent))
            && Life(cfg, maxSteps, node, st, h, episodes).0.state == e.state
    decreases |worlds|
  {
    hide A.Invoke;
    var episodes := seq(|worlds|, i requires 0 <= i < |worlds| => Episode([], worlds[i]));
    var e := A.Invoke(cfg, maxSteps, node, st, h.keys, worlds[0]);
    if e.outcome.Suspended? && |worlds| > 1 {
      var left := History(e.keys, h.dispatched + Keys(cfg, e.sent));
      var rest := worlds[1..];
      assert episodes[1..] == seq(|rest|, i requires 0 <= i < |rest| => Episode([], rest[i]));
      LifeAloneIsTheRun(cfg, maxSteps, A.ToolNode, e.state, left, rest);
      var later := A.Run(cfg, maxSteps, A.ToolNode, e.state, e.keys, rest);
      KeysConcat(cfg, e.sent, later.sent);
      ConcatAssociates(h.dispatched, Keys(cfg, e.sent), Keys(cfg, later.sent));
    }
  }

  // ---------------------------------------------------------------- a failing key has no bound

  /** A model that asks for one call, a tool that fails it, and a process that dies each time between the
      record of the failure and the end of the pass. */
  function FailingWorld(call: ToolCall, error: string): A.World {
    A.World((messages: seq<A.Message>) => A.Response("", [call]),
            (messages: seq<A.Message>, i: nat) => CallEnv(true, Approved, None, Failure(error), AfterRecord))
  }

  function FailingWorlds(call: ToolCall, error: string, n: nat): seq<A.World> {
    seq(n, i => FailingWorld(call, error))
  }

  ghost predicate Replayable(cfg: Settings, call: ToolCall) {
    call.id != "" && cfg.hasStore && (cfg.registry.Some? ==> call.name in cfg.registry.value)
  }

  /** One replay: the state stays as it was, the call is sent, the record is FAILED. */
  lemma FailingPass(cfg: Settings, st: A.State, keys: I.Table, call: ToolCall, error: string)
    requires Replayable(cfg, call) && A.PendingCalls(st) == [call] && call.id !in st.executed
    requires var key := cfg.sessionId + ":" + call.id; key !in keys || FailedKey(keys, key)
    ensures var p := A.ToolPass(cfg, st, keys, FailingWorld(call, error));
            p.cut && p.sent == [Sent(0, call)] && FailedKey(p.keys, cfg.sessionId + ":" + call.id)
  {
    var w := FailingWorld(call, error);
    var envs := A.Envs(st, w);
    assert envs == [CallEnv(true, Approved, None, Failure(error), AfterRecord)];
    PassOfOneCall(cfg, keys, st.executed, call, envs[0]);
  }

  lemma FailingInvocation(cfg: Settings, maxSteps: int, st: A.State, keys: I.Table, call: ToolCall, error: string)
    requires Replayable(cfg, call) && A.PendingCalls(st) == [call] && call.id !in st.executed
    requires var key := cfg.sessionId + ":" + call.id; key !in keys || FailedKey(keys, key)
    ensures var key := cfg.sessionId + ":" + call.id;
            var e := A.Invoke(cfg, maxSteps, A.ToolNode, st, keys, FailingWorld(call, error));
            && e.outcome.Suspended? && e.state == st
            && Keys(cfg, e.sent) == [key] && FailedKey(e.keys, key)
  {
    hide A.ToolPass, FailingWorld, FailedKey;
    FailingPass(cfg, st, keys, call, error);
    KeysOfOneMore(cfg, [], Sent(0, call));
    assert [] + [Sent(0, call)] == [Sent(0, call)];
  }

  lemma {:induction false} FailingReplays(cfg: Settings, maxSteps: int, st: A.State, keys: I.Table, call: ToolCall, error: string, n: nat)
    requires n > 0 && Replayable(cfg, call) && A.PendingCalls(st) == [call] && call.id !in st.executed
    requires var key := cfg.sessionId + ":" + call.id; key !in keys || FailedKey(keys, key)
    ensures var key := cfg.sessionId + ":" + call.id;
            var e := A.Run(cfg, maxSteps, A.ToolNode, st, keys, FailingWorlds(call, error, n));
            && Count(Keys(cfg, e.sent), key) == n
            && FailedKey(e.keys, key)
    decreases n
  {
    hide A.Invoke, FailingWorld, FailedKey, Replayable, Keys;
    var key := cfg.sessionId + ":" + call.id;
    var worlds := FailingWorlds(call, error, n);
    assert worlds[0] == FailingWorld(call, error);
    var e := A.Invoke(cfg, maxSteps, A.ToolNode, st, keys, worlds[0]);
    FailingInvocation(cfg, maxSteps, st, keys, call, error);
    if n > 1 {
      assert worlds[1..] == FailingWorlds(call, error, n - 1);
      FailingReplays(cfg, maxSteps, st, e.keys, call, error, n - 1);
      var later := A.Run(cfg, maxSteps, A.ToolNode, st, e.keys, worlds[1..]);
      KeysConcat(cfg, e.sent, later.sent);
      CountConcat(Keys(cfg, e.sent), Keys(cfg, later.sent), key);
    }
  }

  /** Without the proviso there is no bound.  For every `n` there is an agent run, with a single model call
      and a process that dies `n` times behind the record of the failure, that dispatches one key `n` times. */
  lemma FailedKeyIsUnbounded(cfg: Settings, call: ToolCall, error: string, n: nat)
    requires n > 0 && Replayable(cfg, call)
    ensures var key := cfg.sessionId + ":" + call.id;
            var e := A.Run(cfg, 1, A.AgentNode, A.State([], 0, None, {}), map[], FailingWorlds(call, error, n));
            && Count(Keys(cfg, e.sent), key) == n
            && FailedKey(e.keys, key)
  {
    hide A.ToolPass;
    var st := A.State([], 0, None, {});
    var worlds := FailingWorlds(call, error, n);
    var st' := A.WithResponse(st, A.Response("", [call]));
    assert A.PendingCalls(st') == [call];
    FailingReplays(cfg, 1, st', map[], call, error, n);
    FirstCallThenTools(cfg, st, st', worlds);
  }

  lemma FirstCallThenTools(cfg: Settings, st: A.State, st': A.State, worlds: seq<A.World>)
    requires worlds != [] && st.stepCount < 1
    requires st' == A.WithResponse(st, worlds[0].model(st.messages)) && A.PendingCalls(st') != []
    ensures var e := A.Run(cfg, 1, A.AgentNode, st, map[], worlds);
            var f := A.Run(cfg, 1, A.ToolNode, st', map[], worlds);
            e.keys == f.keys && e.sent == f.sent
  {
    hide A.ToolPass;
  }
}
