/** What the agent endpoint stores when the graph is interrupted for approval, and what becomes of it. */
module ApprovalEndpoint {
  import opened Values
  import opened ApprovalMachine
  import H = HitlStore
  import G = GrantRepo
  import X = ApprovalExecutor

  /** The value the tool node interrupts the graph with. */
  datatype Interrupt = Interrupt(
    threadId: string,
    toolName: string,
    toolArgs: Args,
    toolCallId: string,
    idempotencyKey: string)

  function PendingSession(user: string, q: Interrupt): H.Session {
    H.Session(user, q.threadId, H.Pending, q.toolName, q.toolArgs, Some(q.idempotencyKey), 1, None, q.toolCallId)
  }

  function PendingGrant(id: string, user: string, q: Interrupt): G.Grant {
    G.Grant(user, "", q.threadId, Some(id), Some(""), q.toolCallId, q.toolName, q.toolArgs, Sha256(q.toolArgs),
            q.idempotencyKey, G.Pending, None, None, 1)
  }

  /** The endpoint stores no deadline; a session gets one only from a caller that inserts it with one. */
  function WithDeadline(s: H.Session, deadline: Option<int>): H.Session {
    s.(expiresAt := deadline)
  }

  /** The two insertions, then an approver that has just arrived. */
  function StoreThenApprove(id: string, user: string, q: Interrupt, deadline: Option<int>, actor: string): seq<Action> {
    [InsertSession(id, WithDeadline(PendingSession(user, q), deadline)), InsertGrant(id, PendingGrant(id, user, q)),
     Start(Approve, id, Some(actor))]
  }

  ghost predicate Unused(w: World, id: string, key: string) {
    && id !in w.sessions && id !in w.grants
    && (forall x | x in w.sessions :: w.sessions[x].idempotencyKey != Some(key))
    && (forall x | x in w.grants :: w.grants[x].idempotencyKey != key)
    && (if key != "" then key else id) !in w.keys
  }

  function Stored(w: World, id: string, user: string, q: Interrupt, deadline: Option<int>): World {
    w.(sessions := w.sessions[id := WithDeadline(PendingSession(user, q), deadline)],
       grants := w.grants[id := PendingGrant(id, user, q)])
  }

  lemma StoringStores(c: Config, id: string, user: string, q: Interrupt, deadline: Option<int>, actor: string)
    requires Unused(c.world, id, q.idempotencyKey)
    ensures Run(c, StoreThenApprove(id, user, q, deadline, actor))
            == Config(Stored(c.world, id, user, q, deadline), c.actors + [Actor(Approve, id, Some(actor), LoadSession)], c.log)
  {
    var actions := StoreThenApprove(id, user, q, deadline, actor);
    var c1 := Apply(c, actions[0]);
    var c2 := Apply(c1, actions[1]);
    assert c1.world.sessions == c.world.sessions[id := WithDeadline(PendingSession(user, q), deadline)];
    assert c2.world == Stored(c.world, id, user, q, deadline);
    assert Run(c, actions) == Run(c1, actions[1..]);
    assert Run(c1, actions[1..]) == Run(c2, actions[2..]);
    assert actions[2..] == [actions[2]];
    assert Run(Apply(c2, actions[2]), []) == Apply(c2, actions[2]);
    assert [actions[2]][1..] == [];
  }

  /** What the two rows say, column by column. */
  lemma StoredRows(c: Config, id: string, user: string, q: Interrupt, actor: string)
    requires Unused(c.world, id, q.idempotencyKey)
    ensures var w := Run(c, StoreThenApprove(id, user, q, None, actor)).world;
            && id in w.sessions && id in w.grants
            && var (s, g) := (w.sessions[id], w.grants[id]);
            && s.status == H.Pending && s.version == 1 && s.expiresAt == None
            && s.userId == user && s.threadId == q.threadId && s.idempotencyKey == Some(q.idempotencyKey)
            && s.toolName == q.toolName && s.toolArgs == q.toolArgs && s.toolCallId == q.toolCallId
            && g.status == G.Pending && g.version == 1 && g.expiresAt == None && g.consumingAt == None
            && g.requestingUserId == user && g.approvingActorId == "" && g.threadId == q.threadId && g.idempotencyKey == q.idempotencyKey
            && g.runId == Some(id) && g.checkpointId == Some("")
            && g.toolName == q.toolName && g.canonicalToolArgs == q.toolArgs && g.toolCallId == q.toolCallId
            && g.argumentDigest == Sha256(q.toolArgs)
  {
    hide Run;
    StoringStores(c, id, user, q, None, actor);
  }

  lemma StoredIsFresh(w: World, id: string, user: string, q: Interrupt, deadline: Option<int>)
    requires Unused(w, id, q.idempotencyKey) && q.toolCallId != ""
    ensures X.FreshRequest(Stored(w, id, user, q, deadline), id, WithDeadline(PendingSession(user, q), deadline))
    ensures forall now :: G.Live(PendingGrant(id, user, q), now)
  {
  }

  /** The request has been carried out: one more call has gone out, with the tool and the arguments of the
      interrupt, sent by the approver, whose result, session and grant say what the tool said. */
  ghost predicate CarriedOut(c: Config, c': Config, i: nat, id: string, q: Interrupt, actor: string, reply: Reply) {
    && |c'.log| == |c.log| + 1 && c'.log[..|c.log|] == c.log
    && var e := c'.log[|c.log|];
    && e.sender == i && e.sessionId == id
    && e.toolName == q.toolName && e.arguments == q.toolArgs
    && i < |c'.actors|
    && id in c'.world.sessions && c'.world.sessions[id].version == 3
    && id in c'.world.grants && c'.world.grants[id].approvingActorId == actor
    && var (end, session, grant) := (c'.actors[i].pc, c'.world.sessions[id].status, c'.world.grants[id].status);
    match reply
    case Success(content) => end == Done(Executed(content)) && session == H.Resumed && grant == G.Consumed
    case Failure(error) => end == Done(ToolFailed(error)) && session == H.Failed && grant == G.Failed
    case Raised => end == Done(OutcomeUnknown) && session == H.Failed && grant == G.Unknown
  }

  /** A stored request with a tool-call id, whose session id and key are new, and whose approver nobody
      interferes with, is carried out if the session is read before its deadline, if it has one. */
  lemma StoredRequestIsCarriedOut(c: Config, id: string, user: string, q: Interrupt, deadline: Option<int>, actor: string,
                                  loadedAt: int, claimedAt: int, reply: Reply)
    requires Unused(c.world, id, q.idempotencyKey) && q.toolCallId != ""
    requires deadline.Some? ==> loadedAt <= deadline.value
    ensures var c1 := Run(c, StoreThenApprove(id, user, q, deadline, actor));
            && |c1.actors| == |c.actors| + 1
            && CarriedOut(c1, Run(c1, X.SoloActions(c1, |c.actors|, loadedAt, claimedAt, reply)), |c.actors|, id, q, actor, reply)
  {
    hide Run, X.SoloActions, X.SnapshotApproved;
    StoringStores(c, id, user, q, deadline, actor);
    StoredIsFresh(c.world, id, user, q, deadline);
    var c1 := Run(c, StoreThenApprove(id, user, q, deadline, actor));
    var s := WithDeadline(PendingSession(user, q), deadline);
    X.ApprovalIsARun(c1, |c.actors|, loadedAt, claimedAt, reply);
    X.FreshRequestIsExecuted(c1.world, id, actor, s, claimedAt, reply);
    assert X.Approval(c1.world, id, Some(actor), loadedAt, claimedAt, reply)
        == X.SnapshotApproved(c1.world, id, actor, s, claimedAt, reply);
  }

  // ---------------------------------------------------------------- what the states do not protect

  /** The approver reads the session, and the sweep comes before its next statement. */
  function LoadThenSweep(i: nat, loadedAt: int, sweptAt: int, reply: Reply): seq<Action> {
    [Advance(i, loadedAt, reply), Sweep(sweptAt)]
  }

  lemma LoadingThenSweeping(c: Config, i: nat, loadedAt: int, sweptAt: int, reply: Reply)
    requires i < |c.actors| && c.actors[i].pc.LoadSession? && c.actors[i].decision == Approve && c.actors[i].identity.Some?
    requires var id := c.actors[i].sessionId;
             && id in c.world.sessions && c.world.sessions[id].status == H.Pending && c.world.sessions[id].toolCallId != ""
             && !c.world.sessions[id].IsExpired(loadedAt) && c.world.sessions[id].IsExpired(sweptAt)
    ensures var a := c.actors[i];
            var swept := Run(c, LoadThenSweep(i, loadedAt, sweptAt, reply));
            && swept.world.grants == c.world.grants && swept.world.keys == c.world.keys && swept.log == c.log
            && swept.world.sessions == H.Swept(c.world.sessions, sweptAt)
            && swept.world.sessions[a.sessionId].status == H.Expired
            && swept.actors == c.actors[i := a.(pc := ApproveGrant(c.world.sessions[a.sessionId]))]
  {
    hide Run, Apply, Step;
    var load, sweep := Advance(i, loadedAt, reply), Sweep(sweptAt);
    TwoActions(c, load, sweep);
    X.OneAdvance(c, i, loadedAt, reply);
    LoadingLeaves(c.world, c.actors[i], loadedAt, reply);
    Sweeping(Apply(c, load), sweptAt);
  }

  lemma LoadingLeaves(w: World, a: Actor, now: int, reply: Reply)
    requires a.pc.LoadSession?
    ensures Step(w, a, now, reply).0 == w && X.Handed(a, 0) == []
  {
  }

  lemma Sweeping(c: Config, now: int)
    ensures Apply(c, Sweep(now)) == c.(world := c.world.(sessions := H.Swept(c.world.sessions, now)))
  {
  }

  lemma TwoActions(c: Config, first: Action, second: Action)
    ensures Run(c, [first, second]) == Apply(Apply(c, first), second)
  {
    hide Apply;
    assert [first, second][1..] == [second] && [second][1..] == [];
    assert Run(Apply(c, first), [second]) == Run(Apply(Apply(c, first), second), []);
  }

  /** The sweep does not stop an approver that has read the session before it: from any reachable state, a
      request stored with a deadline, read in time and then marked EXPIRED by the sweep is carried out all
      the same, and the mark is overwritten. */
  lemma SweptSessionStillExecutes(before: seq<Action>, id: string, user: string, q: Interrupt, deadline: int, actor: string,
                                  loadedAt: int, sweptAt: int, claimedAt: int, reply: Reply)
    requires Unused(Run(EMPTY, before).world, id, q.idempotencyKey) && q.toolCallId != ""
    requires loadedAt <= deadline < sweptAt
    ensures var c := Run(EMPTY, before);
            var i := |c.actors|;
            var stored := Run(c, StoreThenApprove(id, user, q, Some(deadline), actor));
            var swept := Run(stored, LoadThenSweep(i, loadedAt, sweptAt, reply));
            && id in swept.world.sessions && swept.world.sessions[id].status == H.Expired
            && i < |swept.actors|
            && CarriedOut(swept, Run(swept, X.SoloActions(swept, i, loadedAt, claimedAt, reply)), i, id, q, actor, reply)
  {
    hide Run, X.SoloActions, X.SnapshotApproved;
    var c := Run(EMPTY, before);
    var i := |c.actors|;
    StoringStores(c, id, user, q, Some(deadline), actor);
    StoredIsFresh(c.world, id, user, q, Some(deadline));
    var stored := Run(c, StoreThenApprove(id, user, q, Some(deadline), actor));
    var s := stored.world.sessions[id];
    LoadingThenSweeping(stored, i, loadedAt, sweptAt, reply);
    var swept := Run(stored, LoadThenSweep(i, loadedAt, sweptAt, reply));
    assert X.FreshRequest(swept.world, id, s);
    X.SnapshotIsARun(swept, i, loadedAt, claimedAt, reply);
    X.FreshRequestIsExecuted(swept.world, id, actor, s, claimedAt, reply);
  }

  /** RESUMED does not stop a reject: from any reachable state, a request that was carried out successfully
      can afterwards be rejected.  The session then says REJECTED although the call went out and its grant
      is and stays CONSUMED. */
  lemma ExecutedSessionCanBeRejected(before: seq<Action>, id: string, user: string, q: Interrupt, actor: string, rejecter: string,
                                     loadedAt: int, claimedAt: int, rejectedAt: int, content: string)
    requires Unused(Run(EMPTY, before).world, id, q.idempotencyKey) && q.toolCallId != ""
    ensures var c := Run(EMPTY, before);
            var i := |c.actors|;
            var stored := Run(c, StoreThenApprove(id, user, q, None, actor));
            && |stored.actors| == i + 1
            && var resumed := Run(stored, X.SoloActions(stored, i, loadedAt, claimedAt, Success(content)));
            var late := Run(resumed, [Start(Reject, id, Some(rejecter))]);
            && |late.actors| == i + 2
            && var c' := Run(late, X.SoloActions(late, i + 1, rejectedAt, rejectedAt, Success(content)));
            && CarriedOut(stored, resumed, i, id, q, actor, Success(content))
            && |c'.actors| == i + 2 && c'.actors[i + 1].pc == Done(RejectedByOperator)
            && id in c'.world.sessions && c'.world.sessions[id].status == H.Rejected && c'.world.sessions[id].version == 4
            && id in c'.world.grants && c'.world.grants[id].status == G.Consumed
            && c'.log == resumed.log
  {
    hide X.SoloActions, Run, X.Approval, X.Rejection, X.Logged, Unused;
    var c := Run(EMPTY, before);
    var i := |c.actors|;
    StoredRequestIsCarriedOut(c, id, user, q, None, actor, loadedAt, claimedAt, Success(content));
    var stored := Run(c, StoreThenApprove(id, user, q, None, actor));
    StoringStores(c, id, user, q, None, actor);
    X.ApprovalIsARun(stored, i, loadedAt, claimedAt, Success(content));
    var resumed := Run(stored, X.SoloActions(stored, i, loadedAt, claimedAt, Success(content)));
    OneMoreActor(resumed, Start(Reject, id, Some(rejecter)));
    var late := Run(resumed, [Start(Reject, id, Some(rejecter))]);
    X.RejectionIsARun(late, i + 1, rejectedAt, Success(content));
    RejectRelabels(late.world, id, rejecter);
  }

  lemma RejectRelabels(w: World, id: string, rejecter: string)
    requires id in w.sessions && w.sessions[id].status == H.Resumed && id in w.grants && w.grants[id].status == G.Consumed
    ensures var (w', r) := X.Rejection(w, id, Some(rejecter));
            && r == RejectedByOperator && w'.grants == w.grants
            && w'.sessions == w.sessions[id := w.sessions[id].(status := H.Rejected, version := w.sessions[id].version + 1)]
  {
  }

  lemma OneMoreActor(c: Config, start: Action)
    requires start.Start?
    ensures Run(c, [start]) == c.(actors := c.actors + [Actor(start.decision, start.id, start.identity, LoadSession)])
  {
    assert [start][1..] == [];
    assert Run(Apply(c, start), []) == Apply(c, start);
  }
}
