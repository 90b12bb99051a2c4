/** The graph's tool node: one pass over the tool calls of the last model message.  A pass that is
    suspended or crashes leaves only what it has already written to the idempotency table, and is
    later started again from the top. */
module ToolNode {
  import opened Values
  import I = IdempotencyStore

  datatype Kind = Read | Write | Transfer | Delete

  datatype ToolCall = ToolCall(id: string, name: string, args: Args)

  datatype ToolDefinition = ToolDefinition(sideEffect: bool, riskLevel: string)

  /** `classify` is the fallback by name, for tools without registry metadata. */
  datatype Settings = Settings(
    sessionId: string,
    hasStore: bool,
    registry: Option<map<string, ToolDefinition>>,
    classify: string -> Kind)

  datatype Decision = Approved | Denied | Pending

  /** The value the human's answer resumes the graph with. */
  datatype Resume = ApprovedResume(canonicalArgs: Option<Args>) | RejectedResume | UnknownResume

  datatype Reply = Success(content: string) | Failure(error: string)

  /** Where the process stops within one call, if it does.  An exception from the tool call is a stop
      after the dispatch.  A stop after the record loses the message and the executed id all the same. */
  datatype Stop = Never | BeforeKey | BeforeDispatch | AfterDispatch | AfterRecord

  /** Everything outside the node that decides what happens to one call. */
  datatype CallEnv = CallEnv(
    schemaOk: bool,
    decision: Decision,
    resume: Option<Resume>,
    reply: Reply,
    stop: Stop)

  datatype Body =
    | InvalidCall
    | AlreadyExecuted
    | AuthorizationDenied
    | DeclinedByHuman
    | InvalidResume
    | CachedResult(content: string)
    | PriorOutcomeUnknown
    | ToolResult(content: string)
    | ToolError(error: string)

  datatype ToolMessage = ToolMessage(callId: string, name: string, body: Body)

  /** A dispatched call, by its position in the model message. */
  datatype Sent = Sent(index: nat, call: ToolCall)

  datatype Progress = Progress(
    cut: bool,
    keys: I.Table,
    executed: set<string>,
    messages: seq<ToolMessage>,
    sent: seq<Sent>)

  function KindOf(cfg: Settings, name: string): Kind {
    if cfg.registry.Some? && name in cfg.registry.value then
      var definition := cfg.registry.value[name];
      if !definition.sideEffect then Read
      else if definition.riskLevel == "critical" then Transfer
      else Write
    else cfg.classify(name)
  }

  predicate Valid(cfg: Settings, call: ToolCall, env: CallEnv) {
    cfg.registry.Some? ==> call.name in cfg.registry.value && env.schemaOk
  }

  function KeyOf(cfg: Settings, call: ToolCall): Option<string> {
    if call.id != "" && cfg.hasStore then Some(cfg.sessionId + ":" + call.id) else None
  }

  /** Remembering an empty id would make unrelated calls look executed. */
  function Remember(executed: set<string>, call: ToolCall): set<string> {
    if call.id != "" then executed + {call.id} else executed
  }

  function Answered(p: Progress, call: ToolCall, body: Body): Progress {
    p.(messages := p.messages + [ToolMessage(call.id, call.name, body)])
  }

  function Finished(p: Progress, call: ToolCall, body: Body): Progress {
    Answered(p, call, body).(executed := Remember(p.executed, call))
  }

  /** The arguments that will be dispatched: the approved canonical ones when the resume carries them. */
  function EffectiveCall(call: ToolCall, env: CallEnv): ToolCall {
    if env.decision == Pending && env.resume.Some? && env.resume.value.ApprovedResume?
       && env.resume.value.canonicalArgs.Some?
    then call.(args := env.resume.value.canonicalArgs.value)
    else call
  }

  /** The record as it stands when the call goes out. */
  function KeysPrepared(keys: I.Table, key: Option<string>, call: ToolCall): I.Table {
    if key.None? then keys
    else if key.value in keys then I.AfterExecuting(keys, key.value)
    else I.AfterReserve(keys, key.value, call.name, call.args)
  }

  function KeysRecorded(keys: I.Table, key: Option<string>, reply: Reply): I.Table {
    if key.None? then keys
    else match reply
      case Success(content) => I.AfterSucceeded(keys, key.value, content)
      case Failure(error) => I.AfterFailed(keys, key.value, if error != "" then error else "unknown error")
  }

  function ResultOf(r: I.Record): string {
    if r.result.Some? && r.result.value != "" then r.result.value else "done"
  }

  /** Prepares the record, sends the call, records the reply. */
  function Execute(p: Progress, key: Option<string>, index: nat, call: ToolCall, env: CallEnv): Progress {
    var prepared := p.(keys := KeysPrepared(p.keys, key, call));
    if env.stop == BeforeDispatch then prepared.(cut := true)
    else
      var out := prepared.(sent := p.sent + [Sent(index, call)]);
      if env.stop == AfterDispatch then out.(cut := true)
      else
        var recorded := out.(keys := KeysRecorded(out.keys, key, env.reply));
        if env.stop == AfterRecord then recorded.(cut := true)
        else
          Finished(recorded, call, if env.reply.Success? then ToolResult(env.reply.content) else ToolError(env.reply.error))
  }

  /** Step 5: what the durable record says about an authorised call. */
  function Consult(cfg: Settings, p: Progress, index: nat, call: ToolCall, env: CallEnv): Progress {
    var key := KeyOf(cfg, call);
    if key.Some? && key.value in p.keys && p.keys[key.value].status == I.Succeeded then
      Finished(p, call, CachedResult(ResultOf(p.keys[key.value])))
    else if key.Some? && key.value in p.keys && p.keys[key.value].status in {I.Executing, I.Unknown}
            && KindOf(cfg, call.name) != Read then
      Finished(p, call, PriorOutcomeUnknown)
    else Execute(p, key, index, call, env)
  }

  /** One iteration of the node's loop. */
  function Handle(cfg: Settings, p: Progress, index: nat, call: ToolCall, env: CallEnv): Progress {
    if !Valid(cfg, call, env) then Answered(p, call, InvalidCall)
    else if call.id != "" && call.id in p.executed then Answered(p, call, AlreadyExecuted)
    else if env.stop == BeforeKey then p.(cut := true)
    else match env.decision
      case Denied => Answered(p, call, AuthorizationDenied)
      case Approved => Consult(cfg, p, index, call, env)
      case Pending =>
        match env.resume
        case None => p.(cut := true)
        case Some(ApprovedResume(_)) => Consult(cfg, p, index, EffectiveCall(call, env), env)
        case Some(RejectedResume) => Finished(p, call, DeclinedByHuman)
        case Some(UnknownResume) => Finished(p, call, InvalidResume)
  }

  /** The node after its first `n` calls. */
  function Pass(cfg: Settings, keys: I.Table, executed: set<string>, calls: seq<ToolCall>, envs: seq<CallEnv>, n: nat): Progress
    requires n <= |calls| <= |envs|
  {
    if n == 0 then Progress(false, keys, executed, [], [])
    else
      var p := Pass(cfg, keys, executed, calls, envs, n - 1);
      if p.cut then p else Handle(cfg, p, n - 1, calls[n - 1], envs[n - 1])
  }

  class Node {
    const cfg: Settings
    const store: I.SqliteIdempotencyStore

    constructor (cfg: Settings, store: I.SqliteIdempotencyStore)
      ensures this.cfg == cfg && this.store == store
    {
      this.cfg := cfg;
      this.store := store;
    }

    /** The loop of the tool node.  `executed` comes from the graph state; the results reach the graph
        state only when the pass is not cut short. */
    method RunPass(calls: seq<ToolCall>, envs: seq<CallEnv>, executedIds: set<string>)
      returns (cut: bool, messages: seq<ToolMessage>, executed: set<string>, sent: seq<Sent>)
      requires |calls| <= |envs|
      modifies store
      ensures Progress(cut, store.rows, executed, messages, sent)
              == Pass(cfg, old(store.rows), executedIds, calls, envs, |calls|)
    {
      hide Handle;
      cut, messages, executed, sent := false, [], executedIds, [];
      var i := 0;
      while i < |calls| && !cut
        invariant 0 <= i <= |calls|
        invariant cut ==> Progress(cut, store.rows, executed, messages, sent)
                          == Pass(cfg, old(store.rows), executedIds, calls, envs, |calls|)
        invariant !cut ==> Progress(cut, store.rows, executed, messages, sent)
                           == Pass(cfg, old(store.rows), executedIds, calls, envs, i)
        decreases |calls| - i, !cut
      {
        ghost var before := Progress(cut, store.rows, executed, messages, sent);
        var more: seq<Sent>;
        var message: Option<ToolMessage>;
        var remember: bool;
        message, remember, more := RunCall(calls[i], envs[i], i, executed, before);
        sent := sent + more;
        if message.None? {
          cut := true;
          CutPassStays(cfg, old(store.rows), executedIds, calls, envs, i + 1, |calls|);
        } else {
          messages := messages + [message.value];
          if remember && calls[i].id != "" {
            executed := executed + {calls[i].id};
          }
        }
        assert Progress(cut, store.rows, executed, messages, sent) == Handle(cfg, before, i, calls[i], envs[i]);
        i := i + 1;
      }
    }

    /** The body of the loop for one call: `message` is missing when the pass stops here. */
    method RunCall(call: ToolCall, env: CallEnv, index: nat, executed: set<string>, ghost p: Progress)
      returns (message: Option<ToolMessage>, remember: bool, sent: seq<Sent>)
      requires p.keys == store.rows && p.executed == executed && !p.cut
      modifies store
      ensures remember ==> message.Some?
      ensures Handle(cfg, p, index, call, env)
                == Progress(message.None?, store.rows, if remember then Remember(executed, call) else executed,
                            if message.Some? then p.messages + [message.value] else p.messages, p.sent + sent)
    {
      remember, sent := false, [];
      if cfg.registry.Some? && !(call.name in cfg.registry.value && env.schemaOk) {
        return Some(ToolMessage(call.id, call.name, InvalidCall)), false, [];
      }
      if call.id != "" && call.id in executed {
        return Some(ToolMessage(call.id, call.name, AlreadyExecuted)), false, [];
      }
      if env.stop == BeforeKey {
        return None, false, [];
      }
      if env.decision == Denied {
        return Some(ToolMessage(call.id, call.name, AuthorizationDenied)), false, [];
      }
      var approved := call;
      if env.decision == Pending {
        if env.resume.None? {
          return None, false, [];
        }
        match env.resume.value {
          case ApprovedResume(canonicalArgs) =>
            if canonicalArgs.Some? {
              approved := call.(args := canonicalArgs.value);
            }
          case RejectedResume =>
            return Some(ToolMessage(call.id, call.name, DeclinedByHuman)), true, [];
          case UnknownResume =>
            return Some(ToolMessage(call.id, call.name, InvalidResume)), true, [];
        }
      }
      message, remember, sent := RunAuthorised(approved, env, index, p);
    }

    /** Looks the key up and prepares its record; a message means that the call must not go out. */
    method RunConsult(call: ToolCall)
      returns (message: Option<Body>)
      modifies store
      ensures var key := KeyOf(cfg, call);
              if message.Some? then
                && store.rows == old(store.rows)
                && key.Some? && key.value in old(store.rows)
                && (if old(store.rows)[key.value].status == I.Succeeded
                    then message.value == CachedResult(ResultOf(old(store.rows)[key.value]))
                    else old(store.rows)[key.value].status in {I.Executing, I.Unknown}
                         && KindOf(cfg, call.name) != Read && message.value == PriorOutcomeUnknown)
              else
                && store.rows == KeysPrepared(old(store.rows), key, call)
                && (key.Some? && key.value in old(store.rows) ==>
                      && old(store.rows)[key.value].status != I.Succeeded
                      && (old(store.rows)[key.value].status in {I.Executing, I.Unknown} ==> KindOf(cfg, call.name) == Read))
    {
      var key := KeyOf(cfg, call);
      if key.Some? {
        var existing := store.Get(key.value);
        if existing.Some? {
          if existing.value.status == I.Succeeded {
            return Some(CachedResult(ResultOf(existing.value)));
          } else if existing.value.status in {I.Failed, I.Reserved} {
            var _ := store.MarkExecuting(key.value);
          } else if KindOf(cfg, call.name) != Read {
            return Some(PriorOutcomeUnknown);
          }
        }
        existing := store.Get(key.value);
        if existing.None? {
          var _ := store.Reserve(key.value, call.name, call.args);
        }
      }
      return None;
    }

    method RunAuthorised(call: ToolCall, env: CallEnv, index: nat, ghost p: Progress)
      returns (message: Option<ToolMessage>, remember: bool, sent: seq<Sent>)
      requires p.keys == store.rows && !p.cut
      modifies store
      ensures remember == message.Some?
      ensures Consult(cfg, p, index, call, env)
                == Progress(message.None?, store.rows, if remember then Remember(p.executed, call) else p.executed,
                            if message.Some? then p.messages + [message.value] else p.messages, p.sent + sent)
    {
      var blocked := RunConsult(call);
      if blocked.Some? {
        return Some(ToolMessage(call.id, call.name, blocked.value)), true, [];
      }
      if env.stop == BeforeDispatch {
        return None, false, [];
      }
      sent := [Sent(index, call)];
      if env.stop == AfterDispatch {
        return None, false, sent;
      }
      var key := KeyOf(cfg, call);
      var body;
      match env.reply {
        case Success(content) =>
          if key.Some? {
            var _ := store.MarkSucceeded(key.value, content);
          }
          body := ToolResult(content);
        case Failure(error) =>
          if key.Some? {
            var _ := store.MarkFailed(key.value, if error != "" then error else "unknown error");
          }
          body := ToolError(error);
      }
      if env.stop == AfterRecord {
        return None, false, sent;
      }
      return Some(ToolMessage(call.id, call.name, body)), true, sent;
    }
  }

  // ---------------------------------------------------------------- facts about one pass

  lemma {:induction false} CutPassStays(cfg: Settings, keys: I.Table, executed: set<string>, calls: seq<ToolCall>,
                                        envs: seq<CallEnv>, m: nat, n: nat)
    requires m <= n <= |calls| <= |envs|
    ensures Pass(cfg, keys, executed, calls, envs, m).cut ==>
              Pass(cfg, keys, executed, calls, envs, n) == Pass(cfg, keys, executed, calls, envs, m)
  {
    hide Handle;
    if m < n {
      CutPassStays(cfg, keys, executed, calls, envs, m, n - 1);
    }
  }

  /** Why a call may be dispatched: it is valid, not yet executed, and authorised at once or by a human
      whose canonical arguments, when given, are the ones sent. */
  ghost predicate Justified(cfg: Settings, executed: set<string>, call: ToolCall, env: CallEnv, sent: ToolCall) {
    && Valid(cfg, call, env)
    && (call.id != "" ==> call.id !in executed)
    && (env.decision == Approved || (env.decision == Pending && env.resume.Some? && env.resume.value.ApprovedResume?))
    && sent == EffectiveCall(call, env)
  }

  /** One iteration either stops the pass or adds the call's own message, and sends at most the call
      itself, which is then remembered. */
  ghost predicate Shape(p: Progress, q: Progress, index: nat, call: ToolCall, sent: ToolCall) {
    && (if q.cut then q.messages == p.messages
        else
          && |q.messages| == |p.messages| + 1 && q.messages[..|p.messages|] == p.messages
          && q.messages[|p.messages|].callId == call.id && q.messages[|p.messages|].name == call.name)
    && p.executed <= q.executed <= p.executed + {call.id}
    && (q.sent == p.sent
        || (q.sent == p.sent + [Sent(index, sent)] && (!q.cut && call.id != "" ==> call.id in q.executed)))
  }

  /** What the durable record allows: no record, a RESERVED or FAILED one, or, for a read, an open one. */
  ghost predicate RecordAllows(cfg: Settings, keys: I.Table, call: ToolCall) {
    var key := KeyOf(cfg, call);
    key.Some? && key.value in keys ==>
      match keys[key.value].status
      case Succeeded => false
      case Executing => KindOf(cfg, call.name) == Read
      case Unknown => KindOf(cfg, call.name) == Read
      case _ => true
  }

  lemma ConsultShape(cfg: Settings, p: Progress, index: nat, call: ToolCall, env: CallEnv)
    requires !p.cut
    ensures var q := Consult(cfg, p, index, call, env);
            && Shape(p, q, index, call, call)
            && (q.sent != p.sent <==> RecordAllows(cfg, p.keys, call) && env.stop != BeforeDispatch)
  {
  }

  /** A call is sent exactly when it is justified, its record allows it and the process gets that far. */
  lemma HandleShape(cfg: Settings, p: Progress, index: nat, call: ToolCall, env: CallEnv)
    requires !p.cut
    ensures var q := Handle(cfg, p, index, call, env);
            && Shape(p, q, index, call, EffectiveCall(call, env))
            && (q.sent != p.sent <==>
                  && Justified(cfg, p.executed, call, env, EffectiveCall(call, env))
                  && RecordAllows(cfg, p.keys, call)
                  && !env.stop.BeforeKey? && !env.stop.BeforeDispatch?)
  {
    hide Consult;
    ConsultShape(cfg, p, index, EffectiveCall(call, env), env);
  }

  /** The messages answer the calls in order: all of them when the pass completes, a proper prefix when
      it is cut short. */
  lemma {:induction false} MessagesAnswerCalls(cfg: Settings, keys: I.Table, executed: set<string>,
                                               calls: seq<ToolCall>, envs: seq<CallEnv>, n: nat)
    requires n <= |calls| <= |envs|
    ensures var p := Pass(cfg, keys, executed, calls, envs, n);
            && (if p.cut then |p.messages| < n else |p.messages| == n)
            && forall i | 0 <= i < |p.messages| :: p.messages[i].callId == calls[i].id && p.messages[i].name == calls[i].name
  {
    hide Handle;
    if n > 0 {
      var p := Pass(cfg, keys, executed, calls, envs, n - 1);
      MessagesAnswerCalls(cfg, keys, executed, calls, envs, n - 1);
      if !p.cut {
        HandleShape(cfg, p, n - 1, calls[n - 1], envs[n - 1]);
      }
    }
  }

  /** Every dispatch of a pass is justified, dispatches follow the order of the calls, and no non-empty id
      is dispatched twice within a pass. */
  lemma {:induction false} DispatchesAreJustified(cfg: Settings, keys: I.Table, executed: set<string>,
                                                  calls: seq<ToolCall>, envs: seq<CallEnv>, n: nat)
    requires n <= |calls| <= |envs|
    ensures var p := Pass(cfg, keys, executed, calls, envs, n);
            && executed <= p.executed
            && (forall k | 0 <= k < |p.sent| ::
                  && p.sent[k].index < n
                  && Justified(cfg, executed, calls[p.sent[k].index], envs[p.sent[k].index], p.sent[k].call))
            && (!p.cut ==> forall k | 0 <= k < |p.sent| :: p.sent[k].call.id != "" ==> p.sent[k].call.id in p.executed)
            && (forall j, k | 0 <= j < k < |p.sent| ::
                  && p.sent[j].index < p.sent[k].index
                  && (p.sent[j].call.id == p.sent[k].call.id ==> p.sent[j].call.id == ""))
  {
    hide Handle;
    if n > 0 {
      var p := Pass(cfg, keys, executed, calls, envs, n - 1);
      DispatchesAreJustified(cfg, keys, executed, calls, envs, n - 1);
      if !p.cut {
        HandleShape(cfg, p, n - 1, calls[n - 1], envs[n - 1]);
      }
    }
  }
}
