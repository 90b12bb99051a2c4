/** What every step of the interleaved approval protocol keeps. */
module ApprovalInvariant {
  import opened Values
  import opened ApprovalMachine
  import H = HitlStore
  import G = GrantRepo

  ghost function SessionRow(w: World, id: string): Option<H.Session> {
    if id in w.sessions then Some(w.sessions[id]) else None
  }

  ghost function GrantRow(w: World, id: string): Option<G.Grant> {
    if id in w.grants then Some(w.grants[id]) else None
  }

  // ---------------------------------------------------------------- the two rows of one session

  /** Which status each version carries.  Version 1 is untouched but for the sweep, version 2 holds
      the first decision, version 3 the outcome of an approval, and later ones relabel a RESUMED row. */
  ghost predicate VersionOk(s: H.Session) {
    && s.version >= 1
    && (s.version == 1 ==> s.status in {H.Pending, H.Expired})
    && (s.version == 2 ==> s.status in {H.Approved, H.Rejected, H.Expired, H.ReconciliationRequired})
    && (s.version == 3 ==> s.status in {H.Resumed, H.Failed})
    && (s.version >= 4 ==> s.status in {H.Rejected, H.Expired})
  }

  ghost predicate RowsOk(s: Option<H.Session>, g: Option<G.Grant>) {
    && (s.Some? ==> VersionOk(s.value))
    && (s.Some? && s.value.version >= 3 && s.value.status != H.Failed ==> g.Some? && g.value.status == G.Consumed)
    && (g.Some? ==>
          && g.value.version == 1
          && g.value.status != G.Expired
          && (g.value.status in {G.Approved, G.Consuming, G.Consumed, G.Failed, G.Unknown} ==>
                s.Some? && s.value.toolCallId != "")
          && (g.value.status == G.Rejected ==> s.Some? && s.value.version >= 2))
  }

  // ---------------------------------------------------------------- one actor against its rows

  ghost predicate HasSnapshot(pc: Pc) {
    !pc.LoadSession? && !pc.Done?
  }

  /** A snapshot is of a live row, and the row has only moved forward since. */
  ghost predicate SnapshotOk(s: H.Session, row: Option<H.Session>, g: Option<G.Grant>) {
    && row.Some?
    && s.SameRequest(row.value)
    && s.status in {H.Pending, H.Resumed}
    && VersionOk(s)
    && s.version <= row.value.version
    && (s.version == row.value.version ==> s.status == row.value.status || (s.status == H.Pending && row.value.status == H.Expired))
    && (s.status == H.Resumed ==> g.Some? && g.value.status == G.Consumed)
  }

  /** The actor's compare-and-set on the grant has succeeded. */
  predicate HoldsGrant(a: Actor) {
    a.decision == Approve
    && match a.pc
       case ApproveSession(_) => true
       case ClaimGrant(_) => true
       case ReadBack(_) => true
       case CheckKey(_, _) => true
       case DenyGrant(_, _) => true
       case DenySession(_, _) => true
       case ReserveKey(_, _) => true
       case Dispatch(_, _) => true
       case RecordKey(_, _) => true
       case RecordGrant(_, _) => true
       case RecordSession(_, _) => true
       case Done(r) => r in {SessionUpdateFailed, GrantAlreadyConsumed, OutcomeUnknown}
                       || r.Cached? || r.ReplayDenied? || r.Executed? || r.ToolFailed?
       case _ => false
  }

  /** The actor has handed its call to the tool server. */
  predicate HasDispatched(a: Actor) {
    a.pc.RecordKey? || a.pc.RecordGrant? || a.pc.RecordSession?
    || (a.pc.Done? && (a.pc.result.OutcomeUnknown? || a.pc.result.Executed? || a.pc.result.ToolFailed?))
  }

  ghost predicate BelongsTo(a: Actor) {
    match a.pc
    case LoadSession => true
    case RejectSession(_) => a.decision == Reject
    case RejectGrant(_) => a.decision == Reject
    case Done(RejectedByOperator) => a.decision == Reject
    case Done(r) => a.decision == Approve || r in {SessionNotFound, ActorRequired, SessionUpdateFailed} || r.Already?
    case _ => a.decision == Approve
  }

  ghost predicate At(row: Option<H.Session>, version: int, status: H.Status) {
    row.Some? && row.value.version == version && row.value.status == status
  }

  ghost predicate Is(g: Option<G.Grant>, status: G.Status) {
    g.Some? && g.value.status == status
  }

  /** The claimed grant is the one that was requested, approved by this actor and live when claimed. */
  ghost predicate ClaimedFor(a: Actor, s: H.Session, g: G.Grant) {
    && a.identity.Some?
    && g.approvingActorId == a.identity.value
    && g.toolCallId == s.toolCallId
    && g.toolName == s.toolName
    && g.argumentDigest == Sha256(s.toolArgs)
    && g.requestingUserId == s.userId
    && g.threadId == s.threadId
    && g.idempotencyKey == (if s.idempotencyKey.Some? then s.idempotencyKey.value else "")
    && g.consumingAt.Some?
    && G.Live(g, g.consumingAt.value)
  }

  ghost predicate ClaimHeld(a: Actor, row: Option<H.Session>, g: Option<G.Grant>) {
    && At(row, 2, H.Approved)
    && Is(g, G.Consuming)
    && ClaimedFor(a, row.value, g.value)
  }

  ghost predicate ActorOk(a: Actor, row: Option<H.Session>, g: Option<G.Grant>) {
    && BelongsTo(a)
    && (HasSnapshot(a.pc) ==> SnapshotOk(a.pc.s, row, g))
    && (a.pc.WriteReconciliation? || a.pc.MarkReconciliation? ==> a.pc.s.toolCallId == "")
    && (a.pc.ApproveGrant? ==> a.pc.s.toolCallId != "" && a.identity.Some?)
    && (HoldsGrant(a) ==>
          && row.Some? && row.value.toolCallId != ""
          && g.Some? && a.identity.Some? && g.value.approvingActorId == a.identity.value
          && (HasSnapshot(a.pc) ==> a.pc.s.version == 1))
    && match a.pc
       case ApproveSession(_) => g.value.status in {G.Approved, G.Rejected}
       case ClaimGrant(_) => At(row, 2, H.Approved) && Is(g, G.Approved)
       case ReadBack(_) => ClaimHeld(a, row, g)
       case CheckKey(_, claimed) => ClaimHeld(a, row, g) && g.value == claimed
       case ReserveKey(_, claimed) => ClaimHeld(a, row, g) && g.value == claimed
       case Dispatch(_, claimed) => ClaimHeld(a, row, g) && g.value == claimed
       case DenyGrant(_, _) => ClaimHeld(a, row, g)
       case DenySession(_, _) => At(row, 2, H.Approved) && Is(g, G.Failed)
       case RecordKey(_, _) => ClaimHeld(a, row, g)
       case RecordGrant(_, _) => ClaimHeld(a, row, g)
       case RecordSession(_, reply) => At(row, 2, H.Approved) && Is(g, GrantAfter(reply))
       case RejectGrant(s) => (s.version == 1 ==> At(row, 2, H.Rejected)) && (s.version != 1 ==> row.value.version >= 4)
       case Done(r) => a.decision == Approve ==> OutcomeOk(r, row, g)
       case _ => true
  }

  /** Where each way of finishing leaves the two rows, at the end and ever after. */
  ghost predicate OutcomeOk(r: Result, row: Option<H.Session>, g: Option<G.Grant>) {
    match r
    case SessionUpdateFailed => g.Some? && g.value.status in {G.Approved, G.Rejected}
    case GrantAlreadyConsumed => At(row, 2, H.Approved) && Is(g, G.Approved)
    case Cached(_) => At(row, 2, H.Approved) && Is(g, G.Consuming)
    case ReplayDenied(_) => At(row, 3, H.Failed) && Is(g, G.Failed)
    case ToolFailed(_) => At(row, 3, H.Failed) && Is(g, G.Failed)
    case OutcomeUnknown => At(row, 3, H.Failed) && Is(g, G.Unknown)
    case Executed(_) => Is(g, G.Consumed) && row.Some? && (At(row, 3, H.Resumed) || row.value.version >= 4)
    case _ => true
  }

  // ---------------------------------------------------------------- the whole configuration

  ghost predicate OneHolder(actors: seq<Actor>) {
    forall i, j | 0 <= i < j < |actors| && HoldsGrant(actors[i]) && HoldsGrant(actors[j]) ::
      actors[i].sessionId != actors[j].sessionId
  }

  ghost predicate EntryOk(w: World, actors: seq<Actor>, e: Sent) {
    && e.sender < |actors|
    && actors[e.sender].sessionId == e.sessionId
    && actors[e.sender].decision == Approve
    && HasDispatched(actors[e.sender])
    && e.sessionId in w.sessions && e.session.SameRequest(w.sessions[e.sessionId])
    && e.sessionId in w.grants && e.grant.SameRequest(w.grants[e.sessionId])
    && ClaimedFor(actors[e.sender], e.session, e.grant)
    && e.toolName == e.grant.toolName
    && e.arguments == e.grant.canonicalToolArgs
  }

  ghost predicate LogOk(w: World, actors: seq<Actor>, log: seq<Sent>) {
    && (forall k | 0 <= k < |log| :: EntryOk(w, actors, log[k]))
    && (forall j, k | 0 <= j < k < |log| :: log[j].sender != log[k].sender)
  }

  /** Conversely, an actor that has dispatched is in the log. */
  ghost predicate LogComplete(actors: seq<Actor>, log: seq<Sent>) {
    forall i | 0 <= i < |actors| && HasDispatched(actors[i]) :: exists k | 0 <= k < |log| :: log[k].sender == i
  }

  ghost predicate Inv(c: Config) {
    && (forall id :: RowsOk(SessionRow(c.world, id), GrantRow(c.world, id)))
    && (forall i | 0 <= i < |c.actors| ::
          var a := c.actors[i];
          ActorOk(a, SessionRow(c.world, a.sessionId), GrantRow(c.world, a.sessionId)))
    && OneHolder(c.actors)
    && G.KeysUnique(c.world.grants)
    && LogOk(c.world, c.actors, c.log)
    && LogComplete(c.actors, c.log)
  }

  // ---------------------------------------------------------------- preservation, one step at a time

  /** A step touches the rows of its own session only. */
  lemma StepFrame(w: World, a: Actor, now: int, reply: Reply, id: string)
    requires id != a.sessionId
    ensures SessionRow(Step(w, a, now, reply).0, id) == SessionRow(w, id)
    ensures GrantRow(Step(w, a, now, reply).0, id) == GrantRow(w, id)
  {
  }

  lemma LoadingStep(w: World, a: Actor, now: int, reply: Reply)
    requires a.pc.LoadSession?
    requires RowsOk(SessionRow(w, a.sessionId), GrantRow(w, a.sessionId))
    requires ActorOk(a, SessionRow(w, a.sessionId), GrantRow(w, a.sessionId))
    ensures var (w', pc) := Step(w, a, now, reply);
            && RowsOk(SessionRow(w', a.sessionId), GrantRow(w', a.sessionId))
            && ActorOk(a.(pc := pc), SessionRow(w', a.sessionId), GrantRow(w', a.sessionId))
  {
  }

  lemma ClosingStep(w: World, a: Actor, now: int, reply: Reply)
    requires a.pc.WriteExpired? || a.pc.WriteReconciliation? || a.pc.MarkReconciliation?
    requires RowsOk(SessionRow(w, a.sessionId), GrantRow(w, a.sessionId))
    requires ActorOk(a, SessionRow(w, a.sessionId), GrantRow(w, a.sessionId))
    ensures var (w', pc) := Step(w, a, now, reply);
            && RowsOk(SessionRow(w', a.sessionId), GrantRow(w', a.sessionId))
            && ActorOk(a.(pc := pc), SessionRow(w', a.sessionId), GrantRow(w', a.sessionId))
  {
  }

  lemma ApprovingStep(w: World, a: Actor, now: int, reply: Reply)
    requires a.pc.ApproveGrant? || a.pc.ApproveSession?
    requires RowsOk(SessionRow(w, a.sessionId), GrantRow(w, a.sessionId))
    requires ActorOk(a, SessionRow(w, a.sessionId), GrantRow(w, a.sessionId))
    ensures var (w', pc) := Step(w, a, now, reply);
            && RowsOk(SessionRow(w', a.sessionId), GrantRow(w', a.sessionId))
            && ActorOk(a.(pc := pc), SessionRow(w', a.sessionId), GrantRow(w', a.sessionId))
  {
  }

  lemma ClaimingStep(w: World, a: Actor, now: int, reply: Reply)
    requires a.pc.ClaimGrant? || a.pc.ReadBack?
    requires RowsOk(SessionRow(w, a.sessionId), GrantRow(w, a.sessionId))
    requires ActorOk(a, SessionRow(w, a.sessionId), GrantRow(w, a.sessionId))
    ensures var (w', pc) := Step(w, a, now, reply);
            && RowsOk(SessionRow(w', a.sessionId), GrantRow(w', a.sessionId))
            && ActorOk(a.(pc := pc), SessionRow(w', a.sessionId), GrantRow(w', a.sessionId))
  {
  }

  lemma CheckingStep(w: World, a: Actor, now: int, reply: Reply)
    requires a.pc.CheckKey? || a.pc.DenyGrant? || a.pc.DenySession?
    requires RowsOk(SessionRow(w, a.sessionId), GrantRow(w, a.sessionId))
    requires ActorOk(a, SessionRow(w, a.sessionId), GrantRow(w, a.sessionId))
    ensures var (w', pc) := Step(w, a, now, reply);
            && RowsOk(SessionRow(w', a.sessionId), GrantRow(w', a.sessionId))
            && ActorOk(a.(pc := pc), SessionRow(w', a.sessionId), GrantRow(w', a.sessionId))
  {
  }

  lemma SendingStep(w: World, a: Actor, now: int, reply: Reply)
    requires a.pc.ReserveKey? || a.pc.Dispatch? || a.pc.RecordKey?
    requires RowsOk(SessionRow(w, a.sessionId), GrantRow(w, a.sessionId))
    requires ActorOk(a, SessionRow(w, a.sessionId), GrantRow(w, a.sessionId))
    ensures var (w', pc) := Step(w, a, now, reply);
            && RowsOk(SessionRow(w', a.sessionId), GrantRow(w', a.sessionId))
            && ActorOk(a.(pc := pc), SessionRow(w', a.sessionId), GrantRow(w', a.sessionId))
  {
  }

  lemma RecordingStep(w: World, a: Actor, now: int, reply: Reply)
    requires a.pc.RecordGrant? || a.pc.RecordSession?
    requires RowsOk(SessionRow(w, a.sessionId), GrantRow(w, a.sessionId))
    requires ActorOk(a, SessionRow(w, a.sessionId), GrantRow(w, a.sessionId))
    ensures var (w', pc) := Step(w, a, now, reply);
            && RowsOk(SessionRow(w', a.sessionId), GrantRow(w', a.sessionId))
            && ActorOk(a.(pc := pc), SessionRow(w', a.sessionId), GrantRow(w', a.sessionId))
  {
  }

  lemma RejectingStep(w: World, a: Actor, now: int, reply: Reply)
    requires a.pc.RejectSession? || a.pc.RejectGrant? || a.pc.Done?
    requires RowsOk(SessionRow(w, a.sessionId), GrantRow(w, a.sessionId))
    requires ActorOk(a, SessionRow(w, a.sessionId), GrantRow(w, a.sessionId))
    ensures var (w', pc) := Step(w, a, now, reply);
            && RowsOk(SessionRow(w', a.sessionId), GrantRow(w', a.sessionId))
            && ActorOk(a.(pc := pc), SessionRow(w', a.sessionId), GrantRow(w', a.sessionId))
  {
  }

  predicate Deciding(pc: Pc) {
    pc.LoadSession? || pc.WriteExpired? || pc.WriteReconciliation? || pc.MarkReconciliation?
    || pc.ApproveGrant? || pc.ApproveSession? || pc.RejectSession? || pc.RejectGrant? || pc.Done?
  }

  lemma DecidingStep(w: World, a: Actor, now: int, reply: Reply)
    requires Deciding(a.pc)
    requires RowsOk(SessionRow(w, a.sessionId), GrantRow(w, a.sessionId))
    requires ActorOk(a, SessionRow(w, a.sessionId), GrantRow(w, a.sessionId))
    ensures var (w', pc) := Step(w, a, now, reply);
            && RowsOk(SessionRow(w', a.sessionId), GrantRow(w', a.sessionId))
            && ActorOk(a.(pc := pc), SessionRow(w', a.sessionId), GrantRow(w', a.sessionId))
  {
    if a.pc.LoadSession? {
      LoadingStep(w, a, now, reply);
    } else if a.pc.ApproveGrant? || a.pc.ApproveSession? {
      ApprovingStep(w, a, now, reply);
    } else if a.pc.RejectSession? || a.pc.RejectGrant? || a.pc.Done? {
      RejectingStep(w, a, now, reply);
    } else {
      ClosingStep(w, a, now, reply);
    }
  }

  lemma ExecutingStep(w: World, a: Actor, now: int, reply: Reply)
    requires !Deciding(a.pc)
    requires RowsOk(SessionRow(w, a.sessionId), GrantRow(w, a.sessionId))
    requires ActorOk(a, SessionRow(w, a.sessionId), GrantRow(w, a.sessionId))
    ensures var (w', pc) := Step(w, a, now, reply);
            && RowsOk(SessionRow(w', a.sessionId), GrantRow(w', a.sessionId))
            && ActorOk(a.(pc := pc), SessionRow(w', a.sessionId), GrantRow(w', a.sessionId))
  {
    if a.pc.ClaimGrant? || a.pc.ReadBack? {
      ClaimingStep(w, a, now, reply);
    } else if a.pc.CheckKey? || a.pc.DenyGrant? || a.pc.DenySession? {
      CheckingStep(w, a, now, reply);
    } else if a.pc.RecordGrant? || a.pc.RecordSession? {
      RecordingStep(w, a, now, reply);
    } else {
      SendingStep(w, a, now, reply);
    }
  }

  /** An actor's own step keeps its session's rows in order and lands where its next statement expects. */
  lemma StepOwn(w: World, a: Actor, now: int, reply: Reply)
    requires RowsOk(SessionRow(w, a.sessionId), GrantRow(w, a.sessionId))
    requires ActorOk(a, SessionRow(w, a.sessionId), GrantRow(w, a.sessionId))
    ensures var (w', pc) := Step(w, a, now, reply);
            && RowsOk(SessionRow(w', a.sessionId), GrantRow(w', a.sessionId))
            && ActorOk(a.(pc := pc), SessionRow(w', a.sessionId), GrantRow(w', a.sessionId))
  {
    if Deciding(a.pc) {
      DecidingStep(w, a, now, reply);
    } else {
      ExecutingStep(w, a, now, reply);
    }
  }

  /** The one actor that holds a grant disturbs nobody else on its session. */
  lemma HolderStepOther(w: World, a: Actor, b: Actor, now: int, reply: Reply)
    requires a.sessionId == b.sessionId
    requires HoldsGrant(a) && !HoldsGrant(b)
    requires RowsOk(SessionRow(w, a.sessionId), GrantRow(w, a.sessionId))
    requires ActorOk(a, SessionRow(w, a.sessionId), GrantRow(w, a.sessionId))
    requires ActorOk(b, SessionRow(w, a.sessionId), GrantRow(w, a.sessionId))
    ensures var (w', pc) := Step(w, a, now, reply);
            && ActorOk(b, SessionRow(w', a.sessionId), GrantRow(w', a.sessionId))
            && !(HoldsGrant(a.(pc := pc)) && HoldsGrant(b))
  {
  }

  /** Neither does a rejecter, although it may take an approved grant away. */
  lemma RejecterStepOther(w: World, a: Actor, b: Actor, now: int, reply: Reply)
    requires a.sessionId == b.sessionId
    requires a.decision == Reject
    requires RowsOk(SessionRow(w, a.sessionId), GrantRow(w, a.sessionId))
    requires ActorOk(a, SessionRow(w, a.sessionId), GrantRow(w, a.sessionId))
    requires ActorOk(b, SessionRow(w, a.sessionId), GrantRow(w, a.sessionId))
    ensures var (w', pc) := Step(w, a, now, reply);
            && ActorOk(b, SessionRow(w', a.sessionId), GrantRow(w', a.sessionId))
            && !(HoldsGrant(a.(pc := pc)) && HoldsGrant(b))
  {
  }

  /** Nor an approver that has yet to win the grant: a grant with a holder is no longer PENDING. */
  lemma WinnerStepOther(w: World, a: Actor, b: Actor, now: int, reply: Reply)
    requires a.sessionId == b.sessionId
    requires a.pc.ApproveGrant?
    requires RowsOk(SessionRow(w, a.sessionId), GrantRow(w, a.sessionId))
    requires ActorOk(a, SessionRow(w, a.sessionId), GrantRow(w, a.sessionId))
    requires ActorOk(b, SessionRow(w, a.sessionId), GrantRow(w, a.sessionId))
    ensures var (w', pc) := Step(w, a, now, reply);
            && ActorOk(b, SessionRow(w', a.sessionId), GrantRow(w', a.sessionId))
            && !(HoldsGrant(a.(pc := pc)) && HoldsGrant(b))
  {
  }

  /** The remaining statements of an approver close an expired or historical session. */
  lemma PlainStepOther(w: World, a: Actor, b: Actor, now: int, reply: Reply)
    requires a.sessionId == b.sessionId
    requires a.decision == Approve && !HoldsGrant(a) && !a.pc.ApproveGrant?
    requires RowsOk(SessionRow(w, a.sessionId), GrantRow(w, a.sessionId))
    requires ActorOk(a, SessionRow(w, a.sessionId), GrantRow(w, a.sessionId))
    requires ActorOk(b, SessionRow(w, a.sessionId), GrantRow(w, a.sessionId))
    ensures var (w', pc) := Step(w, a, now, reply);
            && ActorOk(b, SessionRow(w', a.sessionId), GrantRow(w', a.sessionId))
            && !(HoldsGrant(a.(pc := pc)) && HoldsGrant(b))
  {
  }

  lemma StepOther(w: World, a: Actor, b: Actor, now: int, reply: Reply)
    requires a.sessionId == b.sessionId
    requires !(HoldsGrant(a) && HoldsGrant(b))
    requires RowsOk(SessionRow(w, a.sessionId), GrantRow(w, a.sessionId))
    requires ActorOk(a, SessionRow(w, a.sessionId), GrantRow(w, a.sessionId))
    requires ActorOk(b, SessionRow(w, a.sessionId), GrantRow(w, a.sessionId))
    ensures var (w', pc) := Step(w, a, now, reply);
            && ActorOk(b, SessionRow(w', a.sessionId), GrantRow(w', a.sessionId))
            && !(HoldsGrant(a.(pc := pc)) && HoldsGrant(b))
  {
    if HoldsGrant(a) {
      HolderStepOther(w, a, b, now, reply);
    } else if a.decision == Reject {
      RejecterStepOther(w, a, b, now, reply);
    } else if a.pc.ApproveGrant? {
      WinnerStepOther(w, a, b, now, reply);
    } else {
      PlainStepOther(w, a, b, now, reply);
    }
  }
}
