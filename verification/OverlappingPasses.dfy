/** Tool-node passes and executor turns over one idempotency key that overlap in time, await by await.  The
    code does not keep them apart; this module says what becomes of the bound of two dispatches. */
module OverlappingPasses {
  import opened Values
  import opened ToolNode
  import D = DispatchBound
  import I = IdempotencyStore
  import M = ApprovalMachine

  /** The next awaited statement, first of a pass with an authorised, side-effecting call, then of an
      executor that has claimed its grant. */
  datatype Pc =
    | Look | Promote | LookAgain | Reserve | Send | Record(reply: Reply)
    | Check | Claim | Execute | Note(outcome: M.Reply)
    | Done

  /** `sent` lists the senders in the order of their dispatches. */
  datatype State = State(keys: I.Table, pcs: seq<Pc>, sent: seq<nat>)

  /** The tool server may answer or let the call raise. */
  datatype Move = Move(actor: nat, reply: M.Reply)

  predicate IsExecutor(pc: Pc) {
    pc.Check? || pc.Claim? || pc.Execute? || pc.Note?
  }

  function AfterLook(keys: I.Table, key: string): Pc {
    match I.StatusOf(keys, key)
    case None => LookAgain
    case Some(Succeeded) => Done
    case Some(Failed) => Promote
    case Some(Reserved) => Promote
    case Some(_) => Done
  }

  /** A pass whose call raises ends there and records nothing. */
  function AfterSend(reply: M.Reply): Pc {
    match reply
    case Success(content) => Record(Success(content))
    case Failure(error) => Record(Failure(error))
    case Raised => Done
  }

  function NextPc(keys: I.Table, key: string, pc: Pc, reply: M.Reply): Pc {
    match pc
    case Look => AfterLook(keys, key)
    case Promote => LookAgain
    case LookAgain => if key in keys then Send else Reserve
    case Reserve => Send
    case Send => AfterSend(reply)
    case Record(_) => Done
    case Check => if D.ExecutorMaySend(keys, key) then Claim else Done
    case Claim => Execute
    case Execute => Note(reply)
    case Note(_) => Done
    case Done => Done
  }

  function KeysAfter(keys: I.Table, key: string, call: ToolCall, pc: Pc): I.Table {
    match pc
    case Promote => I.AfterExecuting(keys, key)
    case Reserve => I.AfterReserve(keys, key, call.name, call.args)
    case Record(reply) => KeysRecorded(keys, Some(key), reply)
    case Claim => I.AfterReserve(keys, key, call.name, call.args)
    case Note(outcome) => M.KeyRecorded(keys, key, outcome)
    case _ => keys
  }

  function Step(s: State, key: string, call: ToolCall, move: Move): State {
    var i := move.actor;
    if i >= |s.pcs| then s
    else
      State(KeysAfter(s.keys, key, call, s.pcs[i]),
            s.pcs[i := NextPc(s.keys, key, s.pcs[i], move.reply)],
            if s.pcs[i].Send? || s.pcs[i].Execute? then s.sent + [i] else s.sent)
  }

  function Run(s: State, key: string, call: ToolCall, moves: seq<Move>): State
    decreases |moves|
  {
    if moves == [] then s else Run(Step(s, key, call, moves[0]), key, call, moves[1..])
  }

  /** `n` passes and behind them `m` executors, all about to look the key up. */
  function Start(keys: I.Table, n: nat, m: nat): State {
    State(keys, seq(n + m, i => if i < n then Look else Check), [])
  }

  lemma {:induction false} RunConcat(s: State, key: string, call: ToolCall, first: seq<Move>, second: seq<Move>)
    ensures Run(s, key, call, first + second) == Run(Run(s, key, call, first), key, call, second)
    decreases |first|
  {
    hide Step;
    if first == [] {
      assert first + second == second;
    } else {
      assert (first + second)[1..] == first[1..] + second;
      RunConcat(Step(s, key, call, first[0]), key, call, first[1..], second);
    }
  }

  // ---------------------------------------------------------------- one alone

  function Alone(move: Move): seq<Move> {
    [move, move] + ([move, move] + ([move, move] + []))
  }

  lemma TwoMoves(s: State, key: string, call: ToolCall, move: Move, rest: seq<Move>)
    ensures Run(s, key, call, [move, move] + rest) == Run(Step(Step(s, key, call, move), key, call, move), key, call, rest)
  {
    hide Step;
    var moves := [move, move] + rest;
    assert moves[1..] == [move] + rest && moves[1..][1..] == rest;
  }

  lemma SixMoves(s: State, key: string, call: ToolCall, move: Move)
    ensures var two := Step(Step(s, key, call, move), key, call, move);
            var four := Step(Step(two, key, call, move), key, call, move);
            Run(s, key, call, Alone(move)) == Step(Step(four, key, call, move), key, call, move)
  {
    hide Step;
    TwoMoves(s, key, call, move, [move, move] + ([move, move] + []));
    var two := Step(Step(s, key, call, move), key, call, move);
    TwoMoves(two, key, call, move, [move, move] + []);
    var four := Step(Step(two, key, call, move), key, call, move);
    TwoMoves(four, key, call, move, []);
  }

  /** A lone pass over an open record prepares it, sends and records; over a settled one it does nothing. */
  lemma PassAloneRuns(keys: I.Table, key: string, call: ToolCall, reply: M.Reply)
    ensures var s := Run(Start(keys, 1, 0), key, call, Alone(Move(0, reply)));
            var open := AfterLook(keys, key) != Done;
            var prepared := KeysPrepared(keys, Some(key), call);
            && s.pcs == [Done]
            && s.keys == (if !open then keys else if reply.Raised? then prepared
                          else KeysRecorded(prepared, Some(key), AfterSend(reply).reply))
            && s.sent == if open then [0] else []
  {
    SixMoves(Start(keys, 1, 0), key, call, Move(0, reply));
    hide KeysRecorded, Run;
  }

  /** How the tool server answers in an environment of the tool node. */
  function ReplyIn(env: CallEnv): M.Reply {
    if env.stop == AfterDispatch then M.Raised
    else match env.reply
      case Success(content) => M.Success(content)
      case Failure(error) => M.Failure(error)
  }

  /** A pass that nobody overlaps does what the tool node does with the call, also when the call raises. */
  lemma AloneIsTheNode(cfg: Settings, p: Progress, call: ToolCall, env: CallEnv)
    requires !p.cut && env.stop in {Never, AfterDispatch} && KeyOf(cfg, call).Some? && KindOf(cfg, call.name) != Read
    ensures var s := Run(Start(p.keys, 1, 0), KeyOf(cfg, call).value, call, Alone(Move(0, ReplyIn(env))));
            var q := Consult(cfg, p, 0, call, env);
            && s.pcs == [Done] && s.keys == q.keys
            && s.sent == if q.sent != p.sent then [0] else []
  {
    hide Run, Start, KindOf;
    PassAloneRuns(p.keys, KeyOf(cfg, call).value, call, ReplyIn(env));
  }

  /** An executor that nobody overlaps takes an executor's turn. */
  lemma AloneIsTheTurn(h: D.History, key: string, call: ToolCall, reply: M.Reply)
    ensures var s := Run(Start(h.keys, 0, 1), key, call, Alone(Move(0, reply)));
            var after := D.AfterExecutor(h, key, call, reply, Never);
            && s.pcs == [Done] && s.keys == after.keys
            && |s.sent| == |after.dispatched| - |h.dispatched|
  {
    SixMoves(Start(h.keys, 0, 1), key, call, Move(0, reply));
    hide Run, M.KeyRecorded, I.AfterReserve;
  }

  // ---------------------------------------------------------------- each sends once

  predicate HasSent(pc: Pc) {
    pc.Record? || pc.Note? || pc.Done?
  }

  /** What has been sent was sent by different actors, which are past their dispatch. */
  ghost predicate SentOnce(s: State) {
    && (forall k | 0 <= k < |s.sent| :: s.sent[k] < |s.pcs| && HasSent(s.pcs[s.sent[k]]))
    && (forall j, k | 0 <= j < k < |s.sent| :: s.sent[j] != s.sent[k])
  }

  lemma {:induction false} EachSendsOnce(s: State, key: string, call: ToolCall, moves: seq<Move>)
    requires SentOnce(s)
    ensures var t := Run(s, key, call, moves); SentOnce(t) && |t.pcs| == |s.pcs|
    decreases |moves|
  {
    if moves != [] {
      StepSendsOnce(s, key, call, moves[0]);
      hide Step, SentOnce;
      EachSendsOnce(Step(s, key, call, moves[0]), key, call, moves[1..]);
    }
  }

  lemma StepSendsOnce(s: State, key: string, call: ToolCall, move: Move)
    requires SentOnce(s)
    ensures SentOnce(Step(s, key, call, move)) && |Step(s, key, call, move).pcs| == |s.pcs|
  {
    hide KeysAfter;
  }

  lemma {:induction false} DistinctBelow(sent: seq<nat>, n: nat)
    requires forall k | 0 <= k < |sent| :: sent[k] < n
    requires forall j, k | 0 <= j < k < |sent| :: sent[j] != sent[k]
    ensures |sent| <= n
    decreases n
  {
    assert |sent| > 0 ==> sent[0] < n;
    if n > 0 && n - 1 in sent {
      var at :| 0 <= at < |sent| && sent[at] == n - 1;
      DistinctBelow(sent[..at] + sent[at + 1..], n - 1);
    } else if n > 0 {
      DistinctBelow(sent, n - 1);
    }
  }

  /** However they overlap and whatever fails, each of them dispatches at most once. */
  lemma AtMostOneEach(keys: I.Table, n: nat, m: nat, key: string, call: ToolCall, moves: seq<Move>)
    ensures |Run(Start(keys, n, m), key, call, moves).sent| <= n + m
  {
    hide Step, Run;
    EachSendsOnce(Start(keys, n, m), key, call, moves);
    DistinctBelow(Run(Start(keys, n, m), key, call, moves).sent, n + m);
  }

  // ---------------------------------------------------------------- who can be kept from it

  ghost predicate NothingFails(moves: seq<Move>) {
    forall k | 0 <= k < |moves| :: !moves[k].reply.Failure?
  }

  /** While a record exists and has not failed, no executor gets behind its check, and no reply on its way
      is a failure. */
  ghost predicate ExecutorsHeld(s: State, key: string, n: nat) {
    && n <= |s.pcs|
    && key in s.keys && s.keys[key].status != I.Failed
    && (forall i | n <= i < |s.pcs| :: s.pcs[i].Check? || s.pcs[i].Done?)
    && (forall i | 0 <= i < n :: !IsExecutor(s.pcs[i]) && (s.pcs[i].Record? ==> s.pcs[i].reply.Success?))
    && (forall k | 0 <= k < |s.sent| :: s.sent[k] < n)
  }

  lemma StepHoldsExecutors(s: State, key: string, call: ToolCall, n: nat, move: Move)
    requires ExecutorsHeld(s, key, n) && !move.reply.Failure?
    ensures ExecutorsHeld(Step(s, key, call, move), key, n)
  {
  }

  lemma {:induction false} RunHoldsExecutors(s: State, key: string, call: ToolCall, n: nat, moves: seq<Move>)
    requires ExecutorsHeld(s, key, n) && NothingFails(moves)
    ensures ExecutorsHeld(Run(s, key, call, moves), key, n)
    decreases |moves|
  {
    hide Step, ExecutorsHeld;
    if moves != [] {
      StepHoldsExecutors(s, key, call, n, moves[0]);
      RunHoldsExecutors(Step(s, key, call, moves[0]), key, call, n, moves[1..]);
    }
  }

  /** Over a settled record everyone stops at the first look. */
  lemma {:induction false} SettledStopsAll(s: State, key: string, call: ToolCall, moves: seq<Move>)
    requires D.Settled(s.keys, key) && forall i | 0 <= i < |s.pcs| :: s.pcs[i] in {Look, Check, Done}
    ensures Run(s, key, call, moves).sent == s.sent
    decreases |moves|
  {
    if moves != [] {
      SettledStopsAll(Step(s, key, call, moves[0]), key, call, moves[1..]);
    }
  }

  /** How many of `n` passes and `m` executors the record lets through at most. */
  function Capacity(keys: I.Table, key: string, n: nat, m: nat): nat {
    if D.Settled(keys, key) then 0
    else if D.ExecutorMaySend(keys, key) then n + m
    else n
  }

  lemma WithinCapacity(keys: I.Table, n: nat, m: nat, key: string, call: ToolCall, moves: seq<Move>)
    requires NothingFails(moves)
    ensures |Run(Start(keys, n, m), key, call, moves).sent| <= Capacity(keys, key, n, m)
  {
    hide Step, Run;
    var s := Start(keys, n, m);
    if D.Settled(keys, key) {
      SettledStopsAll(s, key, call, moves);
    } else if D.ExecutorMaySend(keys, key) {
      AtMostOneEach(keys, n, m, key, call, moves);
    } else {
      RunHoldsExecutors(s, key, call, n, moves);
      EachSendsOnce(s, key, call, moves);
      DistinctBelow(Run(s, key, call, moves).sent, n);
    }
  }

  // ---------------------------------------------------------------- and all the others can

  const ANSWERED := M.Success("")

  function Looks(k: nat): seq<Move> {
    if k == 0 then [] else Looks(k - 1) + [Move(k - 1, ANSWERED)]
  }

  /** Four moves take an actor from behind its first look to behind its dispatch. */
  function FourMoves(i: nat): seq<Move> {
    [Move(i, ANSWERED), Move(i, ANSWERED)] + ([Move(i, ANSWERED), Move(i, ANSWERED)] + [])
  }

  function Finishes(k: nat): seq<Move> {
    if k == 0 then [] else Finishes(k - 1) + FourMoves(k - 1)
  }

  /** All look the key up before any of them goes on. */
  function AllTogether(k: nat): seq<Move> {
    Looks(k) + Finishes(k)
  }

  /** The actor has found the record open. */
  predicate GoesOn(keys: I.Table, key: string, pc: Pc) {
    pc.LookAgain? || pc.Claim? || (pc.Promote? && key in keys)
  }

  lemma {:induction false} AllLook(keys: I.Table, n: nat, m: nat, key: string, call: ToolCall, k: nat)
    requires k <= Capacity(keys, key, n, m)
    ensures var s := Run(Start(keys, n, m), key, call, Looks(k));
            && s.keys == keys && s.sent == [] && |s.pcs| == n + m
            && (forall i | 0 <= i < k :: GoesOn(keys, key, s.pcs[i]))
            && (forall i | k <= i < n + m :: s.pcs[i] == if i < n then Look else Check)
    decreases k
  {
    if k > 0 {
      var move := Move(k - 1, ANSWERED);
      AllLook(keys, n, m, key, call, k - 1);
      RunConcat(Start(keys, n, m), key, call, Looks(k - 1), [move]);
      assert [move][1..] == [];
    }
  }

  /** An actor that has found the record open goes on to its dispatch, whatever others have made of the
      record since. */
  lemma FinishesOne(s: State, key: string, call: ToolCall, i: nat)
    requires i < |s.pcs| && GoesOn(s.keys, key, s.pcs[i])
    ensures var t := Run(s, key, call, FourMoves(i));
            && t.sent == s.sent + [i]
            && |t.pcs| == |s.pcs| && t.pcs == s.pcs[i := t.pcs[i]]
            && key in t.keys
  {
    var move := Move(i, ANSWERED);
    TwoMoves(s, key, call, move, [move, move] + []);
    var s2 := Step(Step(s, key, call, move), key, call, move);
    TwoMoves(s2, key, call, move, []);
  }

  lemma {:induction false} AllSend(keys: I.Table, n: nat, m: nat, key: string, call: ToolCall, k: nat, j: nat)
    requires j <= k <= Capacity(keys, key, n, m)
    ensures var s := Run(Start(keys, n, m), key, call, Looks(k) + Finishes(j));
            && |s.sent| == j && |s.pcs| == n + m
            && (forall i | j <= i < k :: GoesOn(s.keys, key, s.pcs[i]))
    decreases j
  {
    hide Step, Run, Capacity;
    CapacityIsEnough(keys, key, n, m);
    if j == 0 {
      AllLook(keys, n, m, key, call, k);
      assert Looks(k) + Finishes(0) == Looks(k);
    } else {
      AllSend(keys, n, m, key, call, k, j - 1);
      assert Looks(k) + Finishes(j) == (Looks(k) + Finishes(j - 1)) + FourMoves(j - 1);
      RunConcat(Start(keys, n, m), key, call, Looks(k) + Finishes(j - 1), FourMoves(j - 1));
      FinishesOne(Run(Start(keys, n, m), key, call, Looks(k) + Finishes(j - 1)), key, call, j - 1);
    }
  }

  lemma CapacityIsEnough(keys: I.Table, key: string, n: nat, m: nat)
    ensures Capacity(keys, key, n, m) <= n + m
  {
  }

  lemma {:induction false} MovesSucceed(k: nat)
    ensures NothingFails(Looks(k)) && NothingFails(Finishes(k))
  {
    if k > 0 {
      MovesSucceed(k - 1);
    }
  }

  // ---------------------------------------------------------------- when the bound of two holds

  /** No schedule dispatches more than `bound` times as long as no dispatch fails. */
  ghost predicate Bounded(keys: I.Table, n: nat, m: nat, key: string, call: ToolCall, bound: nat) {
    forall moves | NothingFails(moves) :: |Run(Start(keys, n, m), key, call, moves).sent| <= bound
  }

  /** For passes and executors that may overlap, the dispatches are bounded by how many of them the record
      lets through and by nothing else: all of them if there is no record or a FAILED one, the passes alone
      if it is RESERVED, nobody if it is settled.  So the bound of two, which they keep one after the other
      as long as nothing has failed, breaks exactly when three can get through. */
  lemma OverlapIsBoundedByCapacity(keys: I.Table, n: nat, m: nat, key: string, call: ToolCall, bound: nat)
    ensures Bounded(keys, n, m, key, call, bound) <==> Capacity(keys, key, n, m) <= bound
  {
    hide Capacity, Run;
    var k := Capacity(keys, key, n, m);
    if k <= bound {
      forall moves | NothingFails(moves)
        ensures |Run(Start(keys, n, m), key, call, moves).sent| <= bound
      {
        WithinCapacity(keys, n, m, key, call, moves);
      }
    } else {
      MovesSucceed(k);
      assert NothingFails(AllTogether(k));
      AllSend(keys, n, m, key, call, k, k);
    }
  }
}
