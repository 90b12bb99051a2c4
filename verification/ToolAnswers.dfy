/** What the tool node tells the model and writes down for each call, case by case.  The cases are stated on
    the call, its environment and its durable record alone, independently of the node's program. */
module ToolAnswers {
  import opened Values
  import opened ToolNode
  import I = IdempotencyStore

  // ---------------------------------------------------------------- the cases of one call

  predicate Rejected(cfg: Settings, call: ToolCall, env: CallEnv) {
    cfg.registry.Some? && (call.name !in cfg.registry.value || !env.schemaOk)
  }

  /** A registered tool reads if it has no side effect; for others the classification by name decides. */
  predicate Reads(cfg: Settings, name: string) {
    if cfg.registry.Some? && name in cfg.registry.value then !cfg.registry.value[name].sideEffect else cfg.classify(name) == Read
  }

  predicate Keyed(cfg: Settings, call: ToolCall) {
    |call.id| > 0 && cfg.hasStore
  }

  function DurableKey(cfg: Settings, call: ToolCall): string {
    cfg.sessionId + ":" + call.id
  }

  /** The record of the call's key, if it has one. */
  function RecordOf(cfg: Settings, keys: I.Table, call: ToolCall): Option<I.Record> {
    if Keyed(cfg, call) && DurableKey(cfg, call) in keys then Some(keys[DurableKey(cfg, call)]) else None
  }

  /** The arguments that were approved: those a human has confirmed, or else the model's own. */
  function ApprovedArgs(call: ToolCall, env: CallEnv): Args {
    match (env.decision, env.resume)
    case (Pending, Some(ApprovedResume(Some(args)))) => args
    case _ => call.args
  }

  /** The call is allowed at once, or a human has approved it. */
  predicate Authorised(env: CallEnv) {
    match (env.decision, env.resume)
    case (Approved, _) => true
    case (Pending, Some(ApprovedResume(_))) => true
    case _ => false
  }

  /** The refusal that a call meets before its record is looked at, if any. */
  function Refusal(cfg: Settings, executed: set<string>, call: ToolCall, env: CallEnv): Option<Body> {
    if Rejected(cfg, call, env) then Some(InvalidCall)
    else if |call.id| > 0 && call.id in executed then Some(AlreadyExecuted)
    else if env.stop == BeforeKey then None
    else match (env.decision, env.resume)
      case (Denied, _) => Some(AuthorizationDenied)
      case (Pending, Some(RejectedResume)) => Some(DeclinedByHuman)
      case (Pending, Some(UnknownResume)) => Some(InvalidResume)
      case _ => None
  }

  /** The call gets as far as its record. */
  predicate Admitted(cfg: Settings, executed: set<string>, call: ToolCall, env: CallEnv) {
    !Rejected(cfg, call, env) && !(|call.id| > 0 && call.id in executed) && env.stop != BeforeKey && Authorised(env)
  }

  /** What the record answers in the tool's stead. */
  function AnsweredByRecord(cfg: Settings, keys: I.Table, call: ToolCall): Option<Body> {
    match RecordOf(cfg, keys, call)
    case Some(Record(Succeeded, _, _, result, _)) =>
      Some(CachedResult(if result.Some? && |result.value| > 0 then result.value else "done"))
    case Some(Record(Executing, _, _, _, _)) => if Reads(cfg, call.name) then None else Some(PriorOutcomeUnknown)
    case Some(Record(Unknown, _, _, _, _)) => if Reads(cfg, call.name) then None else Some(PriorOutcomeUnknown)
    case _ => None
  }

  predicate Dispatched(cfg: Settings, keys: I.Table, executed: set<string>, call: ToolCall, env: CallEnv) {
    && Admitted(cfg, executed, call, env)
    && AnsweredByRecord(cfg, keys, call) == None
    && env.stop != BeforeDispatch
  }

  /** Whether the pass stops at this call. */
  predicate Stops(cfg: Settings, keys: I.Table, executed: set<string>, call: ToolCall, env: CallEnv) {
    && Refusal(cfg, executed, call, env) == None
    && if Admitted(cfg, executed, call, env)
       then AnsweredByRecord(cfg, keys, call) == None && env.stop != Never
       else true
  }

  /** The one message that a call is answered with when the pass does not stop at it. */
  function Answer(cfg: Settings, keys: I.Table, executed: set<string>, call: ToolCall, env: CallEnv): Body {
    var refusal, recorded := Refusal(cfg, executed, call, env), AnsweredByRecord(cfg, keys, call);
    if refusal.Some? then refusal.value
    else if recorded.Some? then recorded.value
    else match env.reply
      case Success(content) => ToolResult(content)
      case Failure(error) => ToolError(error)
  }

  /** Only answers that settle the call for good are remembered: not those to a rejected, repeated or
      unauthorised one. */
  predicate Remembered(body: Body) {
    body !in {InvalidCall, AlreadyExecuted, AuthorizationDenied}
  }

  /** The record when the call goes out: a new one is RESERVED, a RESERVED one becomes EXECUTING. */
  function Prepared(found: Option<I.Record>, call: ToolCall, args: Args): I.Record {
    match found
    case None => I.Record(I.Reserved, call.name, args, None, None)
    case Some(r) => if r.status == I.Reserved then r.(status := I.Executing) else r
  }

  /** The record when the reply is in: a result is stored in an EXECUTING one only, an error in any. */
  function Noted(r: I.Record, reply: Reply): I.Record {
    match reply
    case Success(content) => if r.status == I.Executing then r.(status := I.Succeeded, result := Some(content)) else r
    case Failure(error) => r.(status := I.Failed, error := Some(if |error| > 0 then error else "unknown error"))
  }

  /** What the call leaves of its record. */
  ghost predicate RecordLeft(cfg: Settings, keys: I.Table, executed: set<string>, call: ToolCall, env: CallEnv, keys': I.Table) {
    if !Keyed(cfg, call) || !Admitted(cfg, executed, call, env) || AnsweredByRecord(cfg, keys, call).Some? then keys' == keys
    else
      var prepared := Prepared(RecordOf(cfg, keys, call), call, ApprovedArgs(call, env));
      keys' == keys[DurableKey(cfg, call) := if env.stop in {BeforeDispatch, AfterDispatch} then prepared else Noted(prepared, env.reply)]
  }

  /** One iteration of the loop, from `p` to `q`. */
  ghost predicate HandledAs(cfg: Settings, p: Progress, index: nat, call: ToolCall, env: CallEnv, q: Progress) {
    && RecordLeft(cfg, p.keys, p.executed, call, env, q.keys)
    && q.sent == p.sent + (if Dispatched(cfg, p.keys, p.executed, call, env)
                           then [Sent(index, ToolCall(call.id, call.name, ApprovedArgs(call, env)))] else [])
    && q.cut == Stops(cfg, p.keys, p.executed, call, env)
    && if q.cut then q.messages == p.messages && q.executed == p.executed
       else
         var body := Answer(cfg, p.keys, p.executed, call, env);
         && q.messages == p.messages + [ToolMessage(call.id, call.name, body)]
         && q.executed == if |call.id| > 0 && Remembered(body) then p.executed + {call.id} else p.executed
  }

  // ---------------------------------------------------------------- the program handles them so

  lemma HandleIsExact(cfg: Settings, p: Progress, index: nat, call: ToolCall, env: CallEnv)
    requires !p.cut
    ensures HandledAs(cfg, p, index, call, env, Handle(cfg, p, index, call, env))
  {
    assert call.id != "" <==> |call.id| > 0;
    if Admitted(cfg, p.executed, call, env) {
      ConsultIsExact(cfg, p, index, call, env);
    }
    hide Consult, RecordOf, AnsweredByRecord;
  }

  lemma ConsultIsExact(cfg: Settings, p: Progress, index: nat, call: ToolCall, env: CallEnv)
    requires !p.cut && Admitted(cfg, p.executed, call, env)
    ensures HandledAs(cfg, p, index, call, env, Consult(cfg, p, index, ToolCall(call.id, call.name, ApprovedArgs(call, env)), env))
  {
    hide Execute, Reads, KindOf;
    var sent := ToolCall(call.id, call.name, ApprovedArgs(call, env));
    KindReads(cfg, call.name);
    KeyIsDurable(cfg, call);
    KeyIsDurable(cfg, sent);
    NotRefused(cfg, p.executed, call, env);
    hide KeyOf, Admitted, Refusal, Rejected, ApprovedArgs;
    if AnsweredByRecord(cfg, p.keys, call).None? {
      ExecuteIsExact(cfg, p, index, call, env);
      hide HandledAs;
    }
  }

  lemma KindReads(cfg: Settings, name: string)
    ensures KindOf(cfg, name) == Read <==> Reads(cfg, name)
  {
  }

  /** Among registered tools with side effects only the critical ones are transfers. */
  lemma KindIsExact(cfg: Settings, name: string)
    requires cfg.registry.Some? && name in cfg.registry.value
    ensures var definition := cfg.registry.value[name];
            && (KindOf(cfg, name) == Read <==> !definition.sideEffect)
            && (KindOf(cfg, name) == Transfer <==> definition.sideEffect && definition.riskLevel == "critical")
            && (KindOf(cfg, name) == Write <==> definition.sideEffect && definition.riskLevel != "critical")
  {
  }

  lemma KeyIsDurable(cfg: Settings, call: ToolCall)
    ensures KeyOf(cfg, call) == if Keyed(cfg, call) then Some(DurableKey(cfg, call)) else None
  {
    assert call.id != "" <==> |call.id| > 0;
  }

  lemma NotRefused(cfg: Settings, executed: set<string>, call: ToolCall, env: CallEnv)
    requires Admitted(cfg, executed, call, env)
    ensures Refusal(cfg, executed, call, env) == None && env.stop != BeforeKey
  {
  }

  lemma ExecuteIsExact(cfg: Settings, p: Progress, index: nat, call: ToolCall, env: CallEnv)
    requires !p.cut && Admitted(cfg, p.executed, call, env) && AnsweredByRecord(cfg, p.keys, call).None?
    ensures var sent := ToolCall(call.id, call.name, ApprovedArgs(call, env));
            HandledAs(cfg, p, index, call, env, Execute(p, KeyOf(cfg, sent), index, sent, env))
  {
    var sent := ToolCall(call.id, call.name, ApprovedArgs(call, env));
    KeyIsDurable(cfg, sent);
    NotRefused(cfg, p.executed, call, env);
    RecordIsExact(cfg, p.keys, call, sent.args, env.reply);
    hide KeyOf, Admitted, Refusal, Rejected, ApprovedArgs, AnsweredByRecord, KeysPrepared, KeysRecorded, Prepared, Noted;
  }

  lemma RecordIsExact(cfg: Settings, keys: I.Table, call: ToolCall, args: Args, reply: Reply)
    ensures var key := if Keyed(cfg, call) then Some(DurableKey(cfg, call)) else None;
            var prepared := KeysPrepared(keys, key, ToolCall(call.id, call.name, args));
            var record := Prepared(RecordOf(cfg, keys, call), call, args);
            && prepared == (if Keyed(cfg, call) then keys[DurableKey(cfg, call) := record] else keys)
            && KeysRecorded(prepared, key, reply)
               == if Keyed(cfg, call) then keys[DurableKey(cfg, call) := Noted(record, reply)] else keys
  {
  }

  /** The whole pass goes through its calls in order, each handled as its case says, until it stops at one. */
  lemma PassIsExact(cfg: Settings, keys: I.Table, executed: set<string>, calls: seq<ToolCall>, envs: seq<CallEnv>, n: nat)
    requires n < |calls| <= |envs|
    ensures Pass(cfg, keys, executed, calls, envs, 0) == Progress(false, keys, executed, [], [])
    ensures var p, q := Pass(cfg, keys, executed, calls, envs, n), Pass(cfg, keys, executed, calls, envs, n + 1);
            if p.cut then q == p else HandledAs(cfg, p, n, calls[n], envs[n], q)
  {
    hide Handle, HandledAs;
    var p := Pass(cfg, keys, executed, calls, envs, n);
    if !p.cut {
      HandleIsExact(cfg, p, n, calls[n], envs[n]);
    }
  }

  // ---------------------------------------------------------------- answers tell what happened

  /** The call at this place of the message has gone out. */
  ghost predicate WentOut(sent: seq<Sent>, index: nat) {
    exists k | 0 <= k < |sent| :: sent[k].index == index
  }

  ghost predicate Tells(body: Body, wentOut: bool, reply: Reply) {
    && (forall content :: body == ToolResult(content) <==> wentOut && reply == Success(content))
    && (forall error :: body == ToolError(error) <==> wentOut && reply == Failure(error))
  }

  lemma AnswerTells(cfg: Settings, keys: I.Table, executed: set<string>, call: ToolCall, env: CallEnv)
    requires !Stops(cfg, keys, executed, call, env)
    ensures Tells(Answer(cfg, keys, executed, call, env), Dispatched(cfg, keys, executed, call, env), env.reply)
  {
  }

  /** In every pass, cut short or not, the model is told a tool result exactly for the calls that went out
      and succeeded, and a tool error exactly for those that went out and failed, each with the tool's words. */
  lemma {:induction false} AnswersTellWhatHappened(cfg: Settings, keys: I.Table, executed: set<string>,
                                                   calls: seq<ToolCall>, envs: seq<CallEnv>, n: nat)
    requires n <= |calls| <= |envs|
    ensures var p := Pass(cfg, keys, executed, calls, envs, n);
            && |p.messages| <= n && (!p.cut ==> |p.messages| == n)
            && (forall k | 0 <= k < |p.sent| :: p.sent[k].index < n)
            && forall i | 0 <= i < |p.messages| :: Tells(p.messages[i].body, WentOut(p.sent, i), envs[i].reply)
  {
    hide Pass;
    if n == 0 {
      EmptyPass(cfg, keys, executed, calls, envs);
    } else {
      var p, q := Pass(cfg, keys, executed, calls, envs, n - 1), Pass(cfg, keys, executed, calls, envs, n);
      AnswersTellWhatHappened(cfg, keys, executed, calls, envs, n - 1);
      PassIsExact(cfg, keys, executed, calls, envs, n - 1);
      if !p.cut {
        OneMoreTells(cfg, p, q, n - 1, calls[n - 1], envs[n - 1], envs);
      }
    }
  }

  lemma EmptyPass(cfg: Settings, keys: I.Table, executed: set<string>, calls: seq<ToolCall>, envs: seq<CallEnv>)
    requires |calls| <= |envs|
    ensures Pass(cfg, keys, executed, calls, envs, 0) == Progress(false, keys, executed, [], [])
  {
  }

  lemma OneMoreTells(cfg: Settings, p: Progress, q: Progress, n: nat, call: ToolCall, env: CallEnv, envs: seq<CallEnv>)
    requires |p.messages| == n < |envs| && env == envs[n] && HandledAs(cfg, p, n, call, env, q)
    requires forall k | 0 <= k < |p.sent| :: p.sent[k].index < n
    requires forall i | 0 <= i < n :: Tells(p.messages[i].body, WentOut(p.sent, i), envs[i].reply)
    ensures forall k | 0 <= k < |q.sent| :: q.sent[k].index <= n
    ensures forall i | 0 <= i < |q.messages| :: Tells(q.messages[i].body, WentOut(q.sent, i), envs[i].reply)
  {
    hide Stops, Answer, Dispatched, RecordLeft, Tells, Remembered;
    forall i: nat | i <= n
      ensures WentOut(q.sent, i) <==> WentOut(p.sent, i) || (i == n && Dispatched(cfg, p.keys, p.executed, call, env))
    {
      if WentOut(p.sent, i) {
        var k :| 0 <= k < |p.sent| && p.sent[k].index == i;
        assert q.sent[k].index == i;
      }
      if Dispatched(cfg, p.keys, p.executed, call, env) {
        assert q.sent[|p.sent|].index == n;
      }
    }
    assert !WentOut(p.sent, n);
    if !q.cut {
      AnswerTells(cfg, p.keys, p.executed, call, env);
    }
    forall i | 0 <= i < |q.messages|
      ensures Tells(q.messages[i].body, WentOut(q.sent, i), envs[i].reply)
    {
      if i < n {
        assert q.messages[i] == p.messages[i];
      }
    }
  }
}
