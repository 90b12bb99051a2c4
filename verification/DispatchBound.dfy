/** How often one idempotency key can be dispatched over a whole life: any number of graph passes, cut
    short anywhere, and executor turns, one at a time per key. */
module DispatchBound {
  import opened Values
  import opened ToolNode
  import I = IdempotencyStore
  import M = ApprovalMachine
  import R = ApprovalRuns

  /** One use of the durable record.  The executed ids a pass starts from are arbitrary, since the graph
      state may be older than the record. */
  datatype Turn =
    | GraphPass(cfg: Settings, executed: set<string>, calls: seq<ToolCall>, envs: seq<CallEnv>)
    | ExecutorTurn(key: string, call: ToolCall, reply: M.Reply, stop: Stop)

  datatype History = History(keys: I.Table, dispatched: seq<string>)

  // ---------------------------------------------------------------- turns

  function Keys(cfg: Settings, sent: seq<Sent>): seq<string> {
    if sent == [] then []
    else
      var rest := Keys(cfg, sent[..|sent| - 1]);
      var key := KeyOf(cfg, sent[|sent| - 1].call);
      if key.Some? then rest + [key.value] else rest
  }

  predicate ExecutorMaySend(keys: I.Table, key: string) {
    key !in keys || keys[key].status == I.Failed
  }

  /** The executor's use of a key after it has claimed a grant: it goes on only if there is no record, or
      a FAILED one. */
  function AfterExecutor(h: History, key: string, call: ToolCall, reply: M.Reply, stop: Stop): History {
    if !ExecutorMaySend(h.keys, key) || stop == BeforeKey then h
    else
      var reserved := I.AfterReserve(h.keys, key, call.name, call.args);
      if stop == BeforeDispatch then h.(keys := reserved)
      else if stop == AfterDispatch then History(reserved, h.dispatched + [key])
      else History(M.KeyRecorded(reserved, key, reply), h.dispatched + [key])
  }

  function AfterTurn(h: History, turn: Turn): History {
    match turn
    case GraphPass(cfg, executed, calls, envs) =>
      if |envs| < |calls| then h
      else
        var p := Pass(cfg, h.keys, executed, calls, envs, |calls|);
        History(p.keys, h.dispatched + Keys(cfg, p.sent))
    case ExecutorTurn(key, call, reply, stop) => AfterExecutor(h, key, call, reply, stop)
  }

  function AfterTurns(h: History, turns: seq<Turn>): History {
    if turns == [] then h else AfterTurn(AfterTurns(h, turns[..|turns| - 1]), turns[|turns| - 1])
  }

  /** The machine's actions from an approver's look at the record up to the point where it stops. */
  function TurnActions(i: nat, now: int, reply: M.Reply, stop: Stop): seq<M.Action> {
    var action := M.Advance(i, now, reply);
    match stop
    case BeforeKey => [action]
    case BeforeDispatch => [action, action]
    case AfterDispatch => [action, action, action]
    case _ => [action, action, action, action]
  }

  /** The statements that neither send nor touch the record. */
  predicate LeavesRecord(pc: M.Pc) {
    pc.DenyGrant? || pc.DenySession? || pc.RecordGrant? || pc.RecordSession? || pc.Done?
  }

  predicate Advances(actions: seq<M.Action>, i: nat) {
    forall k | 0 <= k < |actions| :: actions[k].Advance? && actions[k].i == i
  }

  lemma {:induction false} RecordIsLeft(c: M.Config, i: nat, actions: seq<M.Action>)
    requires i < |c.actors| && LeavesRecord(c.actors[i].pc) && Advances(actions, i)
    ensures var c' := M.Run(c, actions); c'.world.keys == c.world.keys && c'.log == c.log
    decreases |actions|
  {
    if actions != [] {
      RecordIsLeft(M.Apply(c, actions[0]), i, actions[1..]);
    }
  }

  lemma LooksUp(c: M.Config, i: nat, now: int, reply: M.Reply)
    requires i < |c.actors| && c.actors[i].pc.CheckKey?
    ensures var a := c.actors[i];
            var c' := M.Apply(c, M.Advance(i, now, reply));
            && c'.world.keys == c.world.keys && c'.log == c.log && |c'.actors| == |c.actors|
            && (if ExecutorMaySend(c.world.keys, M.KeyOf(a.sessionId, a.pc.s)) then c'.actors[i] == a.(pc := M.ReserveKey(a.pc.s, a.pc.g))
                else LeavesRecord(c'.actors[i].pc))
  {
  }

  lemma Reserves(c: M.Config, i: nat, now: int, reply: M.Reply)
    requires i < |c.actors| && c.actors[i].pc.ReserveKey?
    ensures var a := c.actors[i];
            var c' := M.Apply(c, M.Advance(i, now, reply));
            && c'.world.keys == I.AfterReserve(c.world.keys, M.KeyOf(a.sessionId, a.pc.s), a.pc.s.toolName, a.pc.s.toolArgs)
            && c'.log == c.log && |c'.actors| == |c.actors| && c'.actors[i] == a.(pc := M.Dispatch(a.pc.s, a.pc.g))
  {
  }

  lemma Sends(c: M.Config, i: nat, now: int, reply: M.Reply)
    requires i < |c.actors| && c.actors[i].pc.Dispatch?
    ensures var a := c.actors[i];
            var c' := M.Apply(c, M.Advance(i, now, reply));
            && c'.world.keys == c.world.keys && |c'.log| == |c.log| + 1
            && |c'.actors| == |c.actors| && c'.actors[i] == a.(pc := M.RecordKey(a.pc.s, reply))
  {
  }

  lemma Records(c: M.Config, i: nat, now: int, reply: M.Reply)
    requires i < |c.actors| && c.actors[i].pc.RecordKey?
    ensures var a := c.actors[i];
            var c' := M.Apply(c, M.Advance(i, now, reply));
            && c'.world.keys == M.KeyRecorded(c.world.keys, M.KeyOf(a.sessionId, a.pc.s), a.pc.reply)
            && c'.log == c.log && |c'.actors| == |c.actors| && c'.actors[i].pc.RecordGrant?
  {
  }

  lemma SendingTurn(c: M.Config, i: nat, now: int, reply: M.Reply, stop: Stop)
    requires i < |c.actors| && c.actors[i].pc.ReserveKey? && stop != BeforeKey
    ensures var a := c.actors[i];
            var key := M.KeyOf(a.sessionId, a.pc.s);
            var reserved := I.AfterReserve(c.world.keys, key, a.pc.s.toolName, a.pc.s.toolArgs);
            var c' := M.Run(c, TurnActions(i, now, reply, stop)[1..]);
            && i < |c'.actors|
            && c'.world.keys == (if stop in {BeforeDispatch, AfterDispatch} then reserved else M.KeyRecorded(reserved, key, reply))
            && |c'.log| == |c.log| + (if stop == BeforeDispatch then 0 else 1)
            && (stop in {Never, AfterRecord} ==> LeavesRecord(c'.actors[i].pc))
  {
    hide M.Apply, M.KeyOf, M.KeyRecorded, I.AfterReserve;
    var action := M.Advance(i, now, reply);
    var actions := TurnActions(i, now, reply, stop)[1..];
    var c1 := M.Apply(c, action);
    Reserves(c, i, now, reply);
    assert actions == [action] + actions[1..];
    R.RunsFirst(c, action, actions[1..]);
    if stop != BeforeDispatch {
      var c2 := M.Apply(c1, action);
      Sends(c1, i, now, reply);
      assert actions[1..] == [action] + actions[2..];
      R.RunsFirst(c1, action, actions[2..]);
      if stop != AfterDispatch {
        Records(c2, i, now, reply);
        assert actions[2..] == [action] + [];
        R.RunsFirst(c2, action, []);
      }
    }
  }

  /** An approver of the machine that holds a claim uses the record in just this way, wherever it stops,
      and whatever it still does once the reply is recorded. */
  lemma ExecutorTurnIsTheMachines(c: M.Config, i: nat, now: int, reply: M.Reply, stop: Stop, rest: seq<M.Action>,
                                  dispatched: seq<string>)
    requires i < |c.actors| && c.actors[i].pc.CheckKey?
    requires Advances(rest, i) && (rest != [] ==> stop in {Never, AfterRecord})
    ensures var a := c.actors[i];
            var call := ToolCall(a.pc.s.toolCallId, a.pc.s.toolName, a.pc.s.toolArgs);
            var h := AfterExecutor(History(c.world.keys, dispatched), M.KeyOf(a.sessionId, a.pc.s), call, reply, stop);
            var c' := M.Run(c, TurnActions(i, now, reply, stop) + rest);
            && h.keys == c'.world.keys
            && |h.dispatched| - |dispatched| == |c'.log| - |c.log|
  {
    var actions := TurnActions(i, now, reply, stop);
    var c1 := M.Apply(c, actions[0]);
    var a := c.actors[i];
    assert actions + rest == [actions[0]] + (actions[1..] + rest);
    R.RunsFirst(c, actions[0], actions[1..] + rest);
    LooksUp(c, i, now, reply);
    hide M.Run, M.Apply;
    if ExecutorMaySend(c.world.keys, M.KeyOf(a.sessionId, a.pc.s)) {
      if stop != BeforeKey {
        SendingTurn(c1, i, now, reply, stop);
        var c4 := M.Run(c1, actions[1..]);
        R.RunConcat(c1, actions[1..], rest);
        if rest != [] {
          RecordIsLeft(c4, i, rest);
        }
      }
    } else {
      RecordIsLeft(c1, i, actions[1..] + rest);
    }
  }

  // ---------------------------------------------------------------- the potential

  /** How many dispatches a record can still allow for a side-effecting tool. */
  function Potential(keys: I.Table, key: string): nat {
    if key !in keys then 2
    else if keys[key].status == I.Reserved then 1
    else 0
  }

  function Count(dispatched: seq<string>, key: string): nat {
    multiset(dispatched)[key]
  }

  predicate FailedKey(keys: I.Table, key: string) {
    I.StatusOf(keys, key) == Some(I.Failed)
  }

  /** A record that lets no side-effecting call through. */
  predicate Settled(keys: I.Table, key: string) {
    key in keys && keys[key].status in {I.Executing, I.Unknown, I.Succeeded}
  }

  /** The tools that use this key have side effects. */
  ghost predicate SideEffecting(turn: Turn, key: string) {
    turn.GraphPass? ==>
      forall i | 0 <= i < |turn.calls| && KeyOf(turn.cfg, turn.calls[i]) == Some(key) ::
        KindOf(turn.cfg, turn.calls[i].name) != Read
  }

  /** What one use of the record does to a key: a dispatch is paid for out of the potential unless the
      record is FAILED; FAILED is never left; and a settled record is never touched, nor its key sent. */
  ghost predicate Pays(keys: I.Table, count: nat, keys': I.Table, count': nat, key: string) {
    && count <= count'
    && (FailedKey(keys, key) ==> FailedKey(keys', key))
    && (!FailedKey(keys', key) ==> count' + Potential(keys', key) <= count + Potential(keys, key))
    && (Settled(keys, key) ==> count' == count && key in keys' && keys'[key] == keys[key])
  }

  lemma ExecutePays(cfg: Settings, p: Progress, index: nat, call: ToolCall, env: CallEnv, key: string)
    requires !p.cut && RecordAllows(cfg, p.keys, call)
    requires KeyOf(cfg, call) == Some(key) ==> KindOf(cfg, call.name) != Read
    ensures var q := Execute(p, KeyOf(cfg, call), index, call, env);
            Pays(p.keys, 0, q.keys, if q.sent != p.sent && KeyOf(cfg, call) == Some(key) then 1 else 0, key)
  {
  }

  lemma HandlePays(cfg: Settings, p: Progress, index: nat, call: ToolCall, env: CallEnv, key: string)
    requires !p.cut
    requires KeyOf(cfg, call) == Some(key) ==> KindOf(cfg, call.name) != Read
    ensures var q := Handle(cfg, p, index, call, env);
            Pays(p.keys, 0, q.keys, if q.sent != p.sent && KeyOf(cfg, call) == Some(key) then 1 else 0, key)
  {
    var effective := EffectiveCall(call, env);
    if RecordAllows(cfg, p.keys, call) {
      ExecutePays(cfg, p, index, effective, env, key);
    }
    hide Execute;
  }

  lemma KeysOfOneMore(cfg: Settings, sent: seq<Sent>, last: Sent)
    ensures Keys(cfg, sent + [last])
            == if KeyOf(cfg, last.call).Some? then Keys(cfg, sent) + [KeyOf(cfg, last.call).value] else Keys(cfg, sent)
  {
    assert (sent + [last])[..|sent|] == sent;
  }

  lemma CountConcat(a: seq<string>, b: seq<string>, key: string)
    ensures Count(a + b, key) == Count(a, key) + Count(b, key)
  {
  }

  lemma PaysChain(k0: I.Table, k1: I.Table, k2: I.Table, c0: nat, c1: nat, c2: nat, key: string)
    requires Pays(k0, c0, k1, c1, key) && Pays(k1, c1, k2, c2, key)
    ensures Pays(k0, c0, k2, c2, key)
  {
  }

  lemma PaysShift(k0: I.Table, k1: I.Table, spent: nat, base: nat, key: string)
    requires Pays(k0, 0, k1, spent, key)
    ensures Pays(k0, base, k1, base + spent, key)
  {
  }

  lemma HandleCounts(cfg: Settings, p: Progress, index: nat, call: ToolCall, env: CallEnv, key: string)
    requires !p.cut
    ensures var q := Handle(cfg, p, index, call, env);
            Count(Keys(cfg, q.sent), key)
            == Count(Keys(cfg, p.sent), key) + if q.sent != p.sent && KeyOf(cfg, call) == Some(key) then 1 else 0
  {
    hide Handle;
    HandleShape(cfg, p, index, call, env);
    if Handle(cfg, p, index, call, env).sent != p.sent {
      var last := Sent(index, EffectiveCall(call, env));
      KeysOfOneMore(cfg, p.sent, last);
      assert KeyOf(cfg, last.call) == KeyOf(cfg, call);
      if KeyOf(cfg, call).Some? {
        CountConcat(Keys(cfg, p.sent), [KeyOf(cfg, call).value], key);
      }
    }
  }

  lemma PaysNothing(keys: I.Table, key: string)
    ensures Pays(keys, 0, keys, 0, key)
  {
  }

  lemma HandleExtends(cfg: Settings, keys: I.Table, p: Progress, index: nat, call: ToolCall, env: CallEnv, key: string)
    requires !p.cut
    requires KeyOf(cfg, call) == Some(key) ==> KindOf(cfg, call.name) != Read
    requires Pays(keys, 0, p.keys, Count(Keys(cfg, p.sent), key), key)
    ensures var q := Handle(cfg, p, index, call, env);
            Pays(keys, 0, q.keys, Count(Keys(cfg, q.sent), key), key)
  {
    hide Handle, Pays;
    var q := Handle(cfg, p, index, call, env);
    HandlePays(cfg, p, index, call, env, key);
    HandleCounts(cfg, p, index, call, env, key);
    var spent := if q.sent != p.sent && KeyOf(cfg, call) == Some(key) then 1 else 0;
    var base := Count(Keys(cfg, p.sent), key);
    PaysShift(p.keys, q.keys, spent, base, key);
    PaysChain(keys, p.keys, q.keys, 0, base, base + spent, key);
  }

  lemma {:induction false} PassPays(cfg: Settings, keys: I.Table, executed: set<string>, calls: seq<ToolCall>,
                                    envs: seq<CallEnv>, n: nat, key: string)
    requires n <= |calls| <= |envs|
    requires SideEffecting(GraphPass(cfg, executed, calls, envs), key)
    ensures var p := Pass(cfg, keys, executed, calls, envs, n);
            Pays(keys, 0, p.keys, Count(Keys(cfg, p.sent), key), key)
  {
    hide Handle, Pays;
    if n == 0 {
      PaysNothing(keys, key);
    } else {
      var p := Pass(cfg, keys, executed, calls, envs, n - 1);
      PassPays(cfg, keys, executed, calls, envs, n - 1, key);
      if !p.cut {
        HandleExtends(cfg, keys, p, n - 1, calls[n - 1], envs[n - 1], key);
      }
    }
  }

  lemma TurnPays(h: History, turn: Turn, key: string)
    requires SideEffecting(turn, key)
    ensures var h' := AfterTurn(h, turn);
            Pays(h.keys, Count(h.dispatched, key), h'.keys, Count(h'.dispatched, key), key)
  {
    match turn
    case GraphPass(cfg, executed, calls, envs) =>
      hide Handle;
      if |calls| <= |envs| {
        var p := Pass(cfg, h.keys, executed, calls, envs, |calls|);
        PassPays(cfg, h.keys, executed, calls, envs, |calls|, key);
        CountConcat(h.dispatched, Keys(cfg, p.sent), key);
        PaysShift(h.keys, p.keys, Count(Keys(cfg, p.sent), key), Count(h.dispatched, key), key);
      }
    case ExecutorTurn(k, call, reply, stop) =>
      ExecutorPays(h, k, call, reply, stop, key);
  }

  lemma ExecutorPays(h: History, k: string, call: ToolCall, reply: M.Reply, stop: Stop, key: string)
    ensures var h' := AfterExecutor(h, k, call, reply, stop);
            Pays(h.keys, Count(h.dispatched, key), h'.keys, Count(h'.dispatched, key), key)
  {
    CountConcat(h.dispatched, [k], key);
  }

  // ---------------------------------------------------------------- whole lives

  ghost predicate AllSideEffecting(turns: seq<Turn>, key: string) {
    forall i | 0 <= i < |turns| :: SideEffecting(turns[i], key)
  }

  /** Across all turns, a key whose tools have side effects is dispatched at most twice, and at most once
      if it starts RESERVED and not at all if it starts EXECUTING or UNKNOWN, for as long as no dispatch of
      it has been recorded as failed.  Once failed it stays failed.  A SUCCEEDED record with its cached
      result never changes, nor does an EXECUTING or UNKNOWN one. */
  lemma {:induction false} LifeOfAKey(h: History, turns: seq<Turn>, key: string)
    requires AllSideEffecting(turns, key)
    ensures var h' := AfterTurns(h, turns);
            Pays(h.keys, Count(h.dispatched, key), h'.keys, Count(h'.dispatched, key), key)
  {
    if turns != [] {
      var before := turns[..|turns| - 1];
      LifeOfAKey(h, before, key);
      TurnPays(AfterTurns(h, before), turns[|turns| - 1], key);
    }
  }

  lemma AtMostTwoDispatches(turns: seq<Turn>, key: string)
    requires AllSideEffecting(turns, key)
    ensures var h := AfterTurns(History(map[], []), turns);
            FailedKey(h.keys, key) || Count(h.dispatched, key) <= 2
  {
    LifeOfAKey(History(map[], []), turns, key);
  }

  /** No use of the record ever dispatches the key again. */
  ghost predicate NeverAgain(h: History, key: string) {
    forall turns | AllSideEffecting(turns, key) ::
      Count(AfterTurns(h, turns).dispatched, key) == Count(h.dispatched, key)
  }

  /** A graph pass that sends one side-effecting call under the given key. */
  function SendingPass(sessionId: string, callId: string, reply: Reply): Turn {
    GraphPass(Settings(sessionId, true, None, (name: string) => Write), {}, [ToolCall(callId, "", map[])],
              [CallEnv(true, Approved, None, reply, Never)])
  }

  lemma PassOfOneCall(cfg: Settings, keys: I.Table, executed: set<string>, call: ToolCall, env: CallEnv)
    ensures Pass(cfg, keys, executed, [call], [env], 1) == Handle(cfg, Progress(false, keys, executed, [], []), 0, call, env)
  {
    hide Handle;
    assert Pass(cfg, keys, executed, [call], [env], 0) == Progress(false, keys, executed, [], []);
  }

  lemma SendingPassSends(h: History, sessionId: string, callId: string, reply: Reply)
    requires callId != "" && !Settled(h.keys, sessionId + ":" + callId)
    ensures var key := sessionId + ":" + callId;
            Count(AfterTurn(h, SendingPass(sessionId, callId, reply)).dispatched, key) == Count(h.dispatched, key) + 1
  {
    hide Handle, Pass, Count;
    var key := sessionId + ":" + callId;
    var turn := SendingPass(sessionId, callId, reply);
    var cfg, call, env := turn.cfg, turn.calls[0], turn.envs[0];
    var p0 := Progress(false, h.keys, {}, [], []);
    var p := Handle(cfg, p0, 0, call, env);
    PassOfOneCall(cfg, h.keys, {}, call, env);
    HandleShape(cfg, p0, 0, call, env);
    HandleCounts(cfg, p0, 0, call, env, key);
    CountConcat(h.dispatched, Keys(cfg, p.sent), key);
    NothingCounted(cfg, key);
  }

  lemma NothingCounted(cfg: Settings, key: string)
    ensures Count(Keys(cfg, []), key) == 0
  {
  }

  lemma FailingPassFails(h: History, sessionId: string, callId: string, error: string)
    requires callId != "" && !Settled(h.keys, sessionId + ":" + callId)
    ensures FailedKey(AfterTurn(h, SendingPass(sessionId, callId, Failure(error))).keys, sessionId + ":" + callId)
  {
    hide Handle, Pass;
    var turn := SendingPass(sessionId, callId, Failure(error));
    PassOfOneCall(turn.cfg, h.keys, {}, turn.calls[0], turn.envs[0]);
    FailingHandle(turn.cfg, Progress(false, h.keys, {}, [], []), turn.calls[0], turn.envs[0]);
  }

  lemma FailingHandle(cfg: Settings, p: Progress, call: ToolCall, env: CallEnv)
    requires !p.cut && p.executed == {} && cfg.registry.None? && env.decision == Approved && env.stop == Never && env.reply.Failure?
    requires KeyOf(cfg, call).Some? && !Settled(p.keys, KeyOf(cfg, call).value)
    ensures FailedKey(Handle(cfg, p, 0, call, env).keys, KeyOf(cfg, call).value)
  {
  }

  /** The record prevents every further dispatch of a graph key exactly when it is EXECUTING, UNKNOWN or
      SUCCEEDED.  A missing, RESERVED or FAILED record does not. */
  lemma NeverAgainIffSettled(h: History, sessionId: string, callId: string)
    requires callId != ""
    ensures var key := sessionId + ":" + callId; NeverAgain(h, key) <==> Settled(h.keys, key)
  {
    hide AfterTurn;
    var key := sessionId + ":" + callId;
    if Settled(h.keys, key) {
      forall turns | AllSideEffecting(turns, key)
        ensures Count(AfterTurns(h, turns).dispatched, key) == Count(h.dispatched, key)
      {
        LifeOfAKey(h, turns, key);
      }
    } else {
      var turns := [SendingPass(sessionId, callId, Success(""))];
      assert AllSideEffecting(turns, key);
      SendingPassSends(h, sessionId, callId, Success(""));
      assert turns[..0] == [];
      assert AfterTurns(h, turns) == AfterTurn(h, turns[0]);
      assert !NeverAgain(h, key);
    }
  }

  /** No use of the record dispatches the key more than `bound` further times. */
  ghost predicate BoundedBy(h: History, key: string, bound: nat) {
    forall turns | AllSideEffecting(turns, key) ::
      Count(AfterTurns(h, turns).dispatched, key) <= Count(h.dispatched, key) + bound
  }

  function FailingPasses(sessionId: string, callId: string, n: nat): seq<Turn> {
    if n == 0 then [] else FailingPasses(sessionId, callId, n - 1) + [SendingPass(sessionId, callId, Failure(""))]
  }

  lemma {:induction false} FailingPassesSend(h: History, sessionId: string, callId: string, n: nat)
    requires callId != "" && !Settled(h.keys, sessionId + ":" + callId)
    ensures var key := sessionId + ":" + callId;
            var turns := FailingPasses(sessionId, callId, n);
            && AllSideEffecting(turns, key)
            && Count(AfterTurns(h, turns).dispatched, key) == Count(h.dispatched, key) + n
            && !Settled(AfterTurns(h, turns).keys, key)
  {
    hide AfterTurn;
    if n > 0 {
      var before := FailingPasses(sessionId, callId, n - 1);
      var turns := FailingPasses(sessionId, callId, n);
      FailingPassesSend(h, sessionId, callId, n - 1);
      assert turns[..|turns| - 1] == before;
      SendingPassSends(AfterTurns(h, before), sessionId, callId, Failure(""));
      FailingPassFails(AfterTurns(h, before), sessionId, callId, "");
    }
  }

  /** From any history: the further dispatches of a graph key have a bound at all exactly when its record is
      settled, and then the bound is none. */
  lemma BoundedIffSettled(h: History, sessionId: string, callId: string)
    requires callId != ""
    ensures var key := sessionId + ":" + callId;
            (exists bound: nat :: BoundedBy(h, key, bound)) <==> Settled(h.keys, key)
  {
    hide AfterTurn, AfterTurns, Settled, AllSideEffecting, FailingPasses;
    var key := sessionId + ":" + callId;
    if Settled(h.keys, key) {
      NeverAgainIffSettled(h, sessionId, callId);
      assert BoundedBy(h, key, 0);
    } else {
      forall bound: nat
        ensures !BoundedBy(h, key, bound)
      {
        FailingPassesSend(h, sessionId, callId, bound + 1);
      }
    }
  }

  /** So the executor's first dispatch of a key is protected against repetition only if it ends in an
      exception that is recorded; a success, a failure or a crash leaves the key open. */
  lemma FirstDispatchIsLastIffRaised(sessionId: string, call: ToolCall, reply: M.Reply, stop: Stop)
    requires call.id != ""
    ensures var key := sessionId + ":" + call.id;
            var h := AfterTurn(History(map[], []), ExecutorTurn(key, call, reply, stop));
            NeverAgain(h, key) <==> reply.Raised? && stop in {Never, AfterRecord}
  {
    hide NeverAgain;
    var key := sessionId + ":" + call.id;
    NeverAgainIffSettled(AfterTurn(History(map[], []), ExecutorTurn(key, call, reply, stop)), sessionId, call.id);
  }

  // ---------------------------------------------------------------- the bound is exact

  /** An approval that the executor carries out, and the graph pass that the endpoint resumes after it. */
  function ApproveThenResume(cfg: Settings, call: ToolCall, answer: string): seq<Turn> {
    [ExecutorTurn(cfg.sessionId + ":" + call.id, call, M.Success(answer), Never),
     GraphPass(cfg, {}, [call], [CallEnv(true, Pending, Some(ApprovedResume(Some(call.args))), Success(answer), Never)])]
  }

  /** The resumed pass over a call whose key is RESERVED dispatches it and records the success. */
  lemma ResumedPass(cfg: Settings, keys: I.Table, call: ToolCall, answer: string)
    requires KeyOf(cfg, call).Some? && I.StatusOf(keys, KeyOf(cfg, call).value) == Some(I.Reserved)
    requires cfg.registry.Some? ==> call.name in cfg.registry.value
    ensures var env := CallEnv(true, Pending, Some(ApprovedResume(Some(call.args))), Success(answer), Never);
            var p := Pass(cfg, keys, {}, [call], [env], 1);
            p.sent == [Sent(0, call)] && I.StatusOf(p.keys, KeyOf(cfg, call).value) == Some(I.Succeeded)
  {
    var env := CallEnv(true, Pending, Some(ApprovedResume(Some(call.args))), Success(answer), Never);
    PassOfOneCall(cfg, keys, {}, call, env);
  }

  lemma FirstExecution(key: string, call: ToolCall, answer: string)
    ensures var h := AfterTurn(History(map[], []), ExecutorTurn(key, call, M.Success(answer), Never));
            h.dispatched == [key] && I.StatusOf(h.keys, key) == Some(I.Reserved)
  {
  }

  /** Two is reached whenever an approval runs normally: the executor's success leaves the key RESERVED, so
      the resumed pass dispatches the call again.  Only then is the record SUCCEEDED. */
  lemma ApprovedCallIsDispatchedTwice(cfg: Settings, call: ToolCall, answer: string)
    requires call.id != "" && cfg.hasStore
    requires cfg.registry.Some? ==> call.name in cfg.registry.value
    ensures var key := cfg.sessionId + ":" + call.id;
            var h := AfterTurns(History(map[], []), ApproveThenResume(cfg, call, answer));
            h.dispatched == [key, key] && I.StatusOf(h.keys, key) == Some(I.Succeeded)
  {
    hide Pass, AfterExecutor;
    var key := cfg.sessionId + ":" + call.id;
    var turns := ApproveThenResume(cfg, call, answer);
    var h0 := History(map[], []);
    assert turns[..1] == [turns[0]] && turns[..1][..0] == [];
    var h1 := AfterTurn(h0, turns[0]);
    assert AfterTurns(h0, turns[..1]) == h1;
    FirstExecution(key, call, answer);
    ResumedPass(cfg, h1.keys, call, answer);
    KeysOfOneMore(cfg, [], Sent(0, call));
    assert [] + [Sent(0, call)] == [Sent(0, call)];
  }
}
