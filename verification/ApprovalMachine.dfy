/** The approval protocol as a state machine.  Every `await` of `approve` and `reject` is one step of
    one actor, and the steps of any number of actors interleave.  An actor that is never advanced
    again has crashed. */
module ApprovalMachine {
  import opened Values
  import H = HitlStore
  import G = GrantRepo
  import I = IdempotencyStore

  datatype World = World(sessions: H.Table, grants: G.Table, keys: I.Table)

  /** What the tool server does with a dispatched call. */
  datatype Reply = Success(content: string) | Failure(error: string) | Raised

  datatype Result =
    | SessionNotFound
    | Already(seen: H.Status)
    | SessionExpired
    | ReconciliationRequired
    | ActorRequired
    | GrantApprovalFailed
    | SessionUpdateFailed
    | GrantAlreadyConsumed
    | Cached(answer: string)
    | ReplayDenied(status: I.Status)
    | OutcomeUnknown
    | Executed(answer: string)
    | ToolFailed(error: string)
    | RejectedByOperator

  /** The next awaited statement, with the local variables that are still needed. */
  datatype Pc =
    | LoadSession
    | WriteExpired(s: H.Session)
    | WriteReconciliation(s: H.Session)
    | MarkReconciliation(s: H.Session)
    | ApproveGrant(s: H.Session)
    | ApproveSession(s: H.Session)
    | ClaimGrant(s: H.Session)
    | ReadBack(s: H.Session)
    | CheckKey(s: H.Session, g: G.Grant)
    | DenyGrant(s: H.Session, status: I.Status)
    | DenySession(s: H.Session, status: I.Status)
    | ReserveKey(s: H.Session, g: G.Grant)
    | Dispatch(s: H.Session, g: G.Grant)
    | RecordKey(s: H.Session, reply: Reply)
    | RecordGrant(s: H.Session, reply: Reply)
    | RecordSession(s: H.Session, reply: Reply)
    | RejectSession(s: H.Session)
    | RejectGrant(s: H.Session)
    | Done(result: Result)

  datatype Decision = Approve | Reject

  datatype Actor = Actor(decision: Decision, sessionId: string, identity: Option<string>, pc: Pc)

  /** A call handed to the tool server, with the rows it was built from. */
  datatype Sent = Sent(
    sender: nat,
    sessionId: string,
    session: H.Session,
    grant: G.Grant,
    toolName: string,
    arguments: Args)

  function KeyOf(id: string, s: H.Session): string {
    if s.idempotencyKey.Some? && s.idempotencyKey.value != "" then s.idempotencyKey.value else id
  }

  function ClaimOf(id: string, actor: string, s: H.Session): G.Claim {
    G.Claim(s.userId, actor, s.threadId, id, "", s.toolCallId, s.toolName, s.toolArgs,
            if s.idempotencyKey.Some? then s.idempotencyKey.value else "", 1)
  }

  function AnswerOf(r: I.Record): string {
    if r.result.Some? && r.result.value != "" then r.result.value else "done"
  }

  function GrantAfter(r: Reply): G.Status {
    match r
    case Success(_) => G.Consumed
    case Failure(_) => G.Failed
    case Raised => G.Unknown
  }

  function SessionAfter(r: Reply): H.Status {
    if r.Success? then H.Resumed else H.Failed
  }

  function ResultAfter(r: Reply): Result {
    match r
    case Success(content) => Executed(content)
    case Failure(error) => ToolFailed(error)
    case Raised => OutcomeUnknown
  }

  // ---------------------------------------------------------------- the two programs

  /** The synchronous checks that follow the first read of the session. */
  function AfterLoad(a: Actor, row: Option<H.Session>, now: int): Pc {
    if row.None? then Done(SessionNotFound)
    else
      var s := row.value;
      if s.IsTerminal() then Done(Already(s.status))
      else if a.decision == Reject then
        if a.identity.None? then Done(ActorRequired) else RejectSession(s)
      else if s.IsExpired(now) then WriteExpired(s)
      else if s.toolCallId == "" then WriteReconciliation(s)
      else if a.identity.None? then Done(ActorRequired)
      else ApproveGrant(s)
  }

  function AfterCheck(s: H.Session, g: G.Grant, existing: Option<I.Record>): Pc {
    if existing.None? then ReserveKey(s, g)
    else match existing.value.status
      case Succeeded => Done(Cached(AnswerOf(existing.value)))
      case Failed => ReserveKey(s, g)
      case other => DenyGrant(s, other)
  }

  function IdentityOf(a: Actor): string {
    if a.identity.Some? then a.identity.value else ""
  }

  /** What the awaited statement does to the session table. */
  function SessionsAfter(t: H.Table, a: Actor): H.Table {
    var id := a.sessionId;
    match a.pc
    case WriteExpired(s) => H.Updated(t, id, H.Expired, s.version)
    case WriteReconciliation(s) => H.Updated(t, id, H.ReconciliationRequired, s.version)
    case ApproveSession(s) => H.Updated(t, id, H.Approved, s.version)
    case DenySession(s, _) => H.Updated(t, id, H.Failed, s.version + 1)
    case RecordSession(s, reply) => H.Updated(t, id, SessionAfter(reply), s.version + 1)
    case RejectSession(s) => H.Updated(t, id, H.Rejected, s.version)
    case _ => t
  }

  /** What the awaited statement does to the grant table. */
  function GrantsAfter(t: G.Table, a: Actor, now: int): G.Table {
    var id := a.sessionId;
    match a.pc
    case MarkReconciliation(_) => G.Marked(t, id, {G.Pending}, G.ReconciliationRequired)
    case ApproveGrant(_) => G.ApprovedBy(t, id, IdentityOf(a), 1)
    case ClaimGrant(s) => G.Claimed(t, id, ClaimOf(id, IdentityOf(a), s), now)
    case DenyGrant(_, _) => G.Marked(t, id, {G.Consuming}, G.Failed)
    case RecordGrant(_, reply) => G.Marked(t, id, {G.Consuming}, GrantAfter(reply))
    case RejectGrant(_) => G.Marked(t, id, {G.Pending, G.Approved}, G.Rejected)
    case _ => t
  }

  function KeyRecorded(t: I.Table, key: string, reply: Reply): I.Table {
    match reply
    case Success(content) => I.AfterSucceeded(t, key, content)
    case Failure(error) => I.AfterFailed(t, key, if error != "" then error else "unknown")
    case Raised => I.AfterUnknown(t, key)
  }

  /** What the awaited statement does to the idempotency table. */
  function KeysAfter(t: I.Table, a: Actor): I.Table {
    match a.pc
    case ReserveKey(s, _) => I.AfterReserve(t, KeyOf(a.sessionId, s), s.toolName, s.toolArgs)
    case RecordKey(s, reply) => KeyRecorded(t, KeyOf(a.sessionId, s), reply)
    case _ => t
  }

  /** Where the program goes next, decided by what the statement found. */
  function NextPc(w: World, a: Actor, now: int, reply: Reply): Pc {
    var id := a.sessionId;
    match a.pc
    case LoadSession => AfterLoad(a, if id in w.sessions then Some(w.sessions[id]) else None, now)
    case WriteExpired(_) => Done(SessionExpired)
    case WriteReconciliation(s) => MarkReconciliation(s)
    case MarkReconciliation(_) => Done(ReconciliationRequired)
    case ApproveGrant(s) =>
      if G.CanApprove(w.grants, id, 1) then ApproveSession(s) else Done(GrantApprovalFailed)
    case ApproveSession(s) =>
      if H.CanUpdate(w.sessions, id, s.version) then ClaimGrant(s) else Done(SessionUpdateFailed)
    case ClaimGrant(s) =>
      if G.CanConsume(w.grants, id, ClaimOf(id, IdentityOf(a), s), now) then ReadBack(s) else Done(GrantAlreadyConsumed)
    case ReadBack(s) =>
      if id in w.grants && w.grants[id].status == G.Consuming
      then CheckKey(s, w.grants[id]) else Done(GrantAlreadyConsumed)
    case CheckKey(s, g) =>
      var key := KeyOf(id, s);
      AfterCheck(s, g, if key in w.keys then Some(w.keys[key]) else None)
    case DenyGrant(s, status) => DenySession(s, status)
    case DenySession(_, status) => Done(ReplayDenied(status))
    case ReserveKey(s, g) => Dispatch(s, g)
    case Dispatch(s, _) => RecordKey(s, reply)
    case RecordKey(s, r) => RecordGrant(s, r)
    case RecordGrant(s, r) => RecordSession(s, r)
    case RecordSession(_, r) => Done(ResultAfter(r))
    case RejectSession(s) =>
      if H.CanUpdate(w.sessions, id, s.version) then RejectGrant(s) else Done(SessionUpdateFailed)
    case RejectGrant(_) => Done(RejectedByOperator)
    case Done(_) => a.pc
  }

  /** One awaited statement: the world and the program counter after it. */
  function Step(w: World, a: Actor, now: int, reply: Reply): (World, Pc) {
    (World(SessionsAfter(w.sessions, a), GrantsAfter(w.grants, a, now), KeysAfter(w.keys, a)),
     NextPc(w, a, now, reply))
  }

  // ---------------------------------------------------------------- interleaved runs

  datatype Config = Config(world: World, actors: seq<Actor>, log: seq<Sent>)

  datatype Action =
    | InsertSession(id: string, s: H.Session)
    | InsertGrant(id: string, g: G.Grant)
    | Sweep(now: int)
    | OthersUseKeys(keys: I.Table)
    | Start(decision: Decision, id: string, identity: Option<string>)
    | Advance(i: nat, now: int, reply: Reply)

  const EMPTY := Config(World(map[], map[], map[]), [], [])

  function Record(c: Config, i: nat): seq<Sent>
    requires i < |c.actors|
  {
    var a := c.actors[i];
    if a.pc.Dispatch?
    then c.log + [Sent(i, a.sessionId, a.pc.s, a.pc.g, a.pc.g.toolName, a.pc.g.canonicalToolArgs)]
    else c.log
  }

  /** Sessions are inserted as PENDING at version 1, as the one inserting endpoint does.  The key
      table may change in any way between two steps, since other programs share it. */
  function Apply(c: Config, action: Action): Config {
    match action
    case InsertSession(id, s) =>
      var row := s.(status := H.Pending, version := 1);
      if H.CanInsert(c.world.sessions, id, row)
      then c.(world := c.world.(sessions := c.world.sessions[id := row]))
      else c
    case InsertGrant(id, g) =>
      c.(world := c.world.(grants := G.Inserted(c.world.grants, id, g)))
    case Sweep(now) =>
      c.(world := c.world.(sessions := H.Swept(c.world.sessions, now)))
    case OthersUseKeys(keys) =>
      c.(world := c.world.(keys := keys))
    case Start(decision, id, identity) =>
      c.(actors := c.actors + [Actor(decision, id, identity, LoadSession)])
    case Advance(i, now, reply) =>
      if i >= |c.actors| then c
      else
        var (world, pc) := Step(c.world, c.actors[i], now, reply);
        Config(world, c.actors[i := c.actors[i].(pc := pc)], Record(c, i))
  }

  function Run(c: Config, actions: seq<Action>): Config
    decreases |actions|
  {
    if actions == [] then c else Run(Apply(c, actions[0]), actions[1..])
  }
}
