/** What an undisturbed `approve` or `reject` answers and writes, case by case and column by column.  The
    cases are stated on the rows alone, independently of the programs. */
module ApprovalOutcomes {
  import opened Values
  import opened ApprovalMachine
  import H = HitlStore
  import G = GrantRepo
  import I = IdempotencyStore
  import X = ApprovalExecutor

  // ---------------------------------------------------------------- the rows, column by column

  /** The statuses in which a session is refused at once. */
  predicate Refused(s: H.Session) {
    s.status in {H.Approved, H.Rejected, H.Expired, H.Failed, H.ReconciliationRequired}
  }

  predicate PastDeadline(s: H.Session, now: int) {
    s.expiresAt.Some? && s.expiresAt.value < now
  }

  /** The session's own key, or its id if that is missing or empty. */
  function DurableKey(id: string, s: H.Session): string {
    match s.idempotencyKey
    case Some(key) => if |key| > 0 then key else id
    case None => id
  }

  predicate GrantPending(w: World, id: string) {
    id in w.grants && w.grants[id].status == G.Pending && w.grants[id].version == 1
  }

  /** The grant is for this very request, whoever approves it, and has not expired. */
  predicate GrantFits(g: G.Grant, id: string, s: H.Session, now: int) {
    && g.requestingUserId == s.userId && g.threadId == s.threadId
    && g.toolCallId == s.toolCallId && g.toolName == s.toolName && g.argumentDigest == Sha256(s.toolArgs)
    && g.idempotencyKey == (if s.idempotencyKey.Some? then s.idempotencyKey.value else "")
    && (g.runId in {None, Some(id)} || |id| == 0)
    && (g.expiresAt.Some? ==> now < g.expiresAt.value)
  }

  /** Only the status and the version of one session row change. */
  ghost predicate SessionSet(w: World, w': World, id: string, status: H.Status, steps: nat)
    requires id in w.sessions
  {
    w'.sessions == w.sessions[id := w.sessions[id].(status := status, version := w.sessions[id].version + steps)]
  }

  /** Only one grant row changes: the approver's name and the status, and the claim time if it was claimed. */
  ghost predicate GrantSet(w: World, w': World, id: string, actor: string, status: G.Status, claimedAt: Option<int>)
    requires id in w.grants
  {
    var g := w.grants[id];
    w'.grants == w.grants[id := g.(approvingActorId := actor, status := status,
                                   consumingAt := if claimedAt.Some? then claimedAt else g.consumingAt)]
  }

  /** Only the record of one key changes. */
  ghost predicate KeySet(w: World, w': World, key: string, r: I.Record) {
    w'.keys == w.keys[key := r]
  }

  // ---------------------------------------------------------------- how `approve` can end early

  ghost predicate EarlyEnd(w: World, id: string, identity: Option<string>, now: int, w': World, r: Result) {
    if id !in w.sessions then r == SessionNotFound && w' == w
    else
      var s := w.sessions[id];
      if Refused(s) then r == Already(s.status) && w' == w
      else if PastDeadline(s, now) then
        r == SessionExpired && SessionSet(w, w', id, H.Expired, 1) && w'.grants == w.grants && w'.keys == w.keys
      else if |s.toolCallId| == 0 then
        && r == ReconciliationRequired && SessionSet(w, w', id, H.ReconciliationRequired, 1) && w'.keys == w.keys
        && (if id in w.grants && w.grants[id].status == G.Pending
            then w'.grants == w.grants[id := w.grants[id].(status := G.ReconciliationRequired)]
            else w'.grants == w.grants)
      else
        && w' == w
        && r == if identity == None then ActorRequired else GrantApprovalFailed
  }

  /** The approval gets as far as its own writes. */
  predicate Proceeds(w: World, id: string, identity: Option<string>, now: int) {
    && id in w.sessions
    && !Refused(w.sessions[id]) && !PastDeadline(w.sessions[id], now) && |w.sessions[id].toolCallId| > 0
    && identity != None
    && GrantPending(w, id)
  }

  // ---------------------------------------------------------------- how it ends otherwise

  /** The claim is refused: both rows stay APPROVED. */
  ghost predicate ClaimRefused(w: World, id: string, actor: string, w': World, r: Result)
    requires id in w.sessions && id in w.grants
  {
    && r == GrantAlreadyConsumed
    && SessionSet(w, w', id, H.Approved, 1) && GrantSet(w, w', id, actor, G.Approved, None) && w'.keys == w.keys
  }

  /** An earlier answer under the key is returned as it was stored, and the claim stays open. */
  ghost predicate AnswerReused(w: World, id: string, actor: string, at: int, w': World, r: Result)
    requires id in w.sessions && id in w.grants && DurableKey(id, w.sessions[id]) in w.keys
  {
    var stored := w.keys[DurableKey(id, w.sessions[id])].result;
    && r == Cached(if stored.Some? && |stored.value| > 0 then stored.value else "done")
    && SessionSet(w, w', id, H.Approved, 1) && GrantSet(w, w', id, actor, G.Consuming, Some(at)) && w'.keys == w.keys
  }

  /** An open record under the key closes the request as failed. */
  ghost predicate ReplayClosed(w: World, id: string, actor: string, at: int, w': World, r: Result)
    requires id in w.sessions && id in w.grants && DurableKey(id, w.sessions[id]) in w.keys
  {
    && r == ReplayDenied(w.keys[DurableKey(id, w.sessions[id])].status)
    && SessionSet(w, w', id, H.Failed, 2) && GrantSet(w, w', id, actor, G.Failed, Some(at)) && w'.keys == w.keys
  }

  /** The call goes out, and its reply is returned and recorded.  A success leaves the record as the
      executor found or made it, because only an EXECUTING one takes it. */
  ghost predicate CallMade(w: World, id: string, actor: string, at: int, reply: Reply, w': World, r: Result)
    requires id in w.sessions && id in w.grants
  {
    var s := w.sessions[id];
    var key := DurableKey(id, s);
    var found := if key in w.keys then w.keys[key] else I.Record(I.Reserved, s.toolName, s.toolArgs, None, None);
    match reply
    case Success(content) =>
      && r == Executed(content)
      && SessionSet(w, w', id, H.Resumed, 2) && GrantSet(w, w', id, actor, G.Consumed, Some(at)) && KeySet(w, w', key, found)
    case Failure(error) =>
      && r == ToolFailed(error)
      && SessionSet(w, w', id, H.Failed, 2) && GrantSet(w, w', id, actor, G.Failed, Some(at))
      && KeySet(w, w', key, found.(status := I.Failed, error := Some(if |error| > 0 then error else "unknown")))
    case Raised =>
      && r == OutcomeUnknown
      && SessionSet(w, w', id, H.Failed, 2) && GrantSet(w, w', id, actor, G.Unknown, Some(at))
      && KeySet(w, w', key, if key in w.keys then found else found.(status := I.Unknown))
  }

  /** Every way an undisturbed approval can end, each under its own condition. */
  ghost predicate ApprovalEnds(w: World, id: string, identity: Option<string>, loadedAt: int, claimedAt: int, reply: Reply,
                               w': World, r: Result)
  {
    if !Proceeds(w, id, identity, loadedAt) then EarlyEnd(w, id, identity, loadedAt, w', r)
    else
      var s := w.sessions[id];
      var key := DurableKey(id, s);
      if !GrantFits(w.grants[id], id, s, claimedAt) then ClaimRefused(w, id, identity.value, w', r)
      else if key in w.keys && w.keys[key].status == I.Succeeded then AnswerReused(w, id, identity.value, claimedAt, w', r)
      else if key in w.keys && w.keys[key].status in {I.Reserved, I.Executing, I.Unknown} then
        ReplayClosed(w, id, identity.value, claimedAt, w', r)
      else CallMade(w, id, identity.value, claimedAt, reply, w', r)
  }

  // ---------------------------------------------------------------- the programs end so

  lemma ApprovalIsExact(w: World, id: string, identity: Option<string>, loadedAt: int, claimedAt: int, reply: Reply)
    ensures var (w', r) := X.Approval(w, id, identity, loadedAt, claimedAt, reply);
            ApprovalEnds(w, id, identity, loadedAt, claimedAt, reply, w', r)
  {
    var (w', r) := X.Approval(w, id, identity, loadedAt, claimedAt, reply);
    if Proceeds(w, id, identity, loadedAt) {
      SnapshotIsExact(w, id, identity.value, claimedAt, reply);
    }
    hide X.SnapshotApproved, GrantFits;
  }

  lemma SnapshotIsExact(w: World, id: string, actor: string, claimedAt: int, reply: Reply)
    requires id in w.sessions && GrantPending(w, id)
    ensures var s := w.sessions[id];
            var key := DurableKey(id, s);
            var (w', r) := X.SnapshotApproved(w, id, actor, s, claimedAt, reply);
            if !GrantFits(w.grants[id], id, s, claimedAt) then ClaimRefused(w, id, actor, w', r)
            else if key in w.keys && w.keys[key].status == I.Succeeded then AnswerReused(w, id, actor, claimedAt, w', r)
            else if key in w.keys && w.keys[key].status in {I.Reserved, I.Executing, I.Unknown} then
              ReplayClosed(w, id, actor, claimedAt, w', r)
            else CallMade(w, id, actor, claimedAt, reply, w', r)
  {
    var s := w.sessions[id];
    var approved := w.grants[id].(status := G.Approved, approvingActorId := actor);
    var claimed := approved.(status := G.Consuming, consumingAt := Some(claimedAt));
    var w1 := World(w.sessions[id := s.(status := H.Approved, version := s.version + 1)], w.grants[id := approved], w.keys);
    var w2 := w1.(grants := w.grants[id := claimed]);
    SnapshotClaims(w, id, actor, claimedAt, reply, w1);
    ClaimIsExact(w1, id, actor, s, claimedAt);
    hide X.SnapshotApproved, G.CanConsume, G.Matches, GrantFits;
    if GrantFits(w.grants[id], id, s, claimedAt) {
      assert G.Claimed(w1.grants, id, ClaimOf(id, actor, s), claimedAt) == w2.grants;
      assert X.SessionClaimed(w1, id, actor, s, claimedAt, reply) == X.ClaimExecuted(w2, id, s, reply);
      hide X.SessionClaimed, X.ClaimExecuted;
      ClaimedIsExact(w, id, actor, claimedAt, reply, w2);
    }
  }

  lemma SnapshotClaims(w: World, id: string, actor: string, claimedAt: int, reply: Reply, w1: World)
    requires id in w.sessions && GrantPending(w, id)
    requires w1 == World(w.sessions[id := w.sessions[id].(status := H.Approved, version := w.sessions[id].version + 1)],
                         w.grants[id := w.grants[id].(status := G.Approved, approvingActorId := actor)], w.keys)
    ensures X.SnapshotApproved(w, id, actor, w.sessions[id], claimedAt, reply) == X.SessionClaimed(w1, id, actor, w.sessions[id], claimedAt, reply)
  {
    hide X.SessionClaimed;
  }

  lemma ClaimIsExact(w: World, id: string, actor: string, s: H.Session, now: int)
    requires id in w.grants && w.grants[id].status == G.Approved && w.grants[id].version == 1 && w.grants[id].approvingActorId == actor
    ensures G.CanConsume(w.grants, id, ClaimOf(id, actor, s), now) <==> GrantFits(w.grants[id], id, s, now)
  {
  }

  /** From the claim on: `w2` is the start with the session APPROVED and the grant claimed. */
  lemma ClaimedIsExact(w: World, id: string, actor: string, at: int, reply: Reply, w2: World)
    requires id in w.sessions && id in w.grants
    requires w2 == World(w.sessions[id := w.sessions[id].(status := H.Approved, version := w.sessions[id].version + 1)],
                         w.grants[id := w.grants[id].(status := G.Consuming, approvingActorId := actor, consumingAt := Some(at))],
                         w.keys)
    ensures var s := w.sessions[id];
            var key := DurableKey(id, s);
            var (w', r) := X.ClaimExecuted(w2, id, s, reply);
            if key in w.keys && w.keys[key].status == I.Succeeded then AnswerReused(w, id, actor, at, w', r)
            else if key in w.keys && w.keys[key].status in {I.Reserved, I.Executing, I.Unknown} then ReplayClosed(w, id, actor, at, w', r)
            else CallMade(w, id, actor, at, reply, w', r)
  {
    var s := w.sessions[id];
    assert KeyOf(id, s) == DurableKey(id, s);
    if DurableKey(id, s) !in w.keys || w.keys[DurableKey(id, s)].status == I.Failed {
      var reserved := w2.(keys := I.AfterReserve(w.keys, DurableKey(id, s), s.toolName, s.toolArgs));
      RecordingIsExact(w, id, actor, at, reply, reserved);
      assert X.ClaimExecuted(w2, id, s, reply) == X.ReplyRecorded(reserved, id, s, reply);
      hide X.ClaimExecuted, X.ReplyRecorded;
    }
  }

  lemma RecordingIsExact(w: World, id: string, actor: string, at: int, reply: Reply, reserved: World)
    requires id in w.sessions && id in w.grants
    requires var key := DurableKey(id, w.sessions[id]); key !in w.keys || w.keys[key].status == I.Failed
    requires reserved.sessions == w.sessions[id := w.sessions[id].(status := H.Approved, version := w.sessions[id].version + 1)]
    requires reserved.grants == w.grants[id := w.grants[id].(status := G.Consuming, approvingActorId := actor, consumingAt := Some(at))]
    requires reserved.keys == I.AfterReserve(w.keys, DurableKey(id, w.sessions[id]), w.sessions[id].toolName, w.sessions[id].toolArgs)
    ensures var (w', r) := X.ReplyRecorded(reserved, id, w.sessions[id], reply);
            CallMade(w, id, actor, at, reply, w', r)
  {
    var s := w.sessions[id];
    var (w', r) := X.ReplyRecorded(reserved, id, s, reply);
    assert KeyOf(id, s) == DurableKey(id, s);
    KeyRecordIsExact(w.keys, DurableKey(id, s), s, reply);
    hide DurableKey, KeyOf, KeyRecorded, I.AfterReserve;
    assert w'.sessions == w.sessions[id := s.(status := SessionAfter(reply), version := s.version + 2)];
    assert w'.grants == w.grants[id := w.grants[id].(status := GrantAfter(reply), approvingActorId := actor, consumingAt := Some(at))];
    hide X.ReplyRecorded;
  }

  lemma KeyRecordIsExact(keys: I.Table, key: string, s: H.Session, reply: Reply)
    requires key !in keys || keys[key].status == I.Failed
    ensures var found := if key in keys then keys[key] else I.Record(I.Reserved, s.toolName, s.toolArgs, None, None);
            KeyRecorded(I.AfterReserve(keys, key, s.toolName, s.toolArgs), key, reply)
            == keys[key := match reply
                           case Success(_) => found
                           case Failure(error) => found.(status := I.Failed, error := Some(if |error| > 0 then error else "unknown"))
                           case Raised => if key in keys then found else found.(status := I.Unknown)]
  {
  }

  // ---------------------------------------------------------------- on the machine, with what is sent

  /** The call that went out has the grant's tool and arguments; none goes out otherwise. */
  ghost predicate SentAs(before: Config, after: Config, i: nat, id: string, goesOut: bool) {
    if !goesOut then after.log == before.log
    else
      && |after.log| == |before.log| + 1 && after.log[..|before.log|] == before.log
      && id in before.world.grants
      && var e := after.log[|before.log|];
      && e.sender == i && e.sessionId == id
      && e.toolName == before.world.grants[id].toolName && e.arguments == before.world.grants[id].canonicalToolArgs
  }

  /** The operator is told what the tool said, word for word, if and only if it was called. */
  ghost predicate AnswersAs(r: Result, reply: Reply, goesOut: bool) {
    && (forall content :: r == Executed(content) <==> goesOut && reply == Success(content))
    && (forall error :: r == ToolFailed(error) <==> goesOut && reply == Failure(error))
    && (r == OutcomeUnknown <==> goesOut && reply == Raised)
  }

  /** The call is made: the approval proceeds, its grant fits, and no earlier use of the key stands against it. */
  predicate GoesOut(w: World, id: string, identity: Option<string>, loadedAt: int, claimedAt: int) {
    && Proceeds(w, id, identity, loadedAt)
    && GrantFits(w.grants[id], id, w.sessions[id], claimedAt)
    && (DurableKey(id, w.sessions[id]) in w.keys ==> w.keys[DurableKey(id, w.sessions[id])].status == I.Failed)
  }

  /** On the machine: an approver that runs undisturbed ends in exactly the way its rows call for, and sends
      the grant's call exactly when none of them stands against it. */
  lemma LoneApprovalIsExact(c: Config, i: nat, loadedAt: int, claimedAt: int, reply: Reply)
    requires i < |c.actors| && c.actors[i].decision == Approve && c.actors[i].pc.LoadSession?
    ensures var a := c.actors[i];
            var c' := Run(c, X.SoloActions(c, i, loadedAt, claimedAt, reply));
            && |c'.actors| == |c.actors| && c'.actors[i].pc.Done?
            && ApprovalEnds(c.world, a.sessionId, a.identity, loadedAt, claimedAt, reply, c'.world, c'.actors[i].pc.result)
            && SentAs(c, c', i, a.sessionId, GoesOut(c.world, a.sessionId, a.identity, loadedAt, claimedAt))
            && AnswersAs(c'.actors[i].pc.result, reply, GoesOut(c.world, a.sessionId, a.identity, loadedAt, claimedAt))
  {
    hide Run, X.SoloActions, X.Approval, ApprovalEnds;
    var a := c.actors[i];
    var c' := Run(c, X.SoloActions(c, i, loadedAt, claimedAt, reply));
    X.ApprovalIsARun(c, i, loadedAt, claimedAt, reply);
    ApprovalIsExact(c.world, a.sessionId, a.identity, loadedAt, claimedAt, reply);
    EndsTellTheCall(c.world, a.sessionId, a.identity, loadedAt, claimedAt, reply, c'.world, c'.actors[i].pc.result);
    EndsTellTheReply(c.world, a.sessionId, a.identity, loadedAt, claimedAt, reply, c'.world, c'.actors[i].pc.result);
    hide GoesOut;
    if X.CallsTool(c'.actors[i].pc.result) {
      assert c'.log[|c.log|..][0] == c'.log[|c.log|];
    }
  }

  lemma EndsTellTheCall(w: World, id: string, identity: Option<string>, loadedAt: int, claimedAt: int, reply: Reply, w': World, r: Result)
    requires ApprovalEnds(w, id, identity, loadedAt, claimedAt, reply, w', r)
    ensures X.CallsTool(r) <==> GoesOut(w, id, identity, loadedAt, claimedAt)
    ensures X.CallsTool(r) ==>
              && id in w.grants && id in w'.grants
              && w'.grants[id].toolName == w.grants[id].toolName
              && w'.grants[id].canonicalToolArgs == w.grants[id].canonicalToolArgs
  {
    hide GrantFits, PastDeadline, Refused, KeySet, SessionSet;
  }

  /** The answer tells the reply, and the reply the answer. */
  lemma EndsTellTheReply(w: World, id: string, identity: Option<string>, loadedAt: int, claimedAt: int, reply: Reply, w': World, r: Result)
    requires ApprovalEnds(w, id, identity, loadedAt, claimedAt, reply, w', r)
    ensures AnswersAs(r, reply, GoesOut(w, id, identity, loadedAt, claimedAt))
  {
    hide GrantFits, PastDeadline, Refused, KeySet, SessionSet, GrantSet;
  }

  // ---------------------------------------------------------------- `reject`

  /** Every way an undisturbed rejection can end. */
  ghost predicate RejectionEnds(w: World, id: string, identity: Option<string>, w': World, r: Result) {
    if id !in w.sessions then r == SessionNotFound && w' == w
    else
      var s := w.sessions[id];
      if Refused(s) then r == Already(s.status) && w' == w
      else if identity == None then r == ActorRequired && w' == w
      else
        && r == RejectedByOperator && SessionSet(w, w', id, H.Rejected, 1) && w'.keys == w.keys
        && (if id in w.grants && w.grants[id].status in {G.Pending, G.Approved}
            then w'.grants == w.grants[id := w.grants[id].(status := G.Rejected)]
            else w'.grants == w.grants)
  }

  /** On the machine: a rejecter that runs undisturbed ends in exactly the way its rows call for, and sends nothing. */
  lemma LoneRejectionIsExact(c: Config, i: nat, now: int, reply: Reply)
    requires i < |c.actors| && c.actors[i].decision == Reject && c.actors[i].pc.LoadSession?
    ensures var a := c.actors[i];
            var c' := Run(c, X.SoloActions(c, i, now, now, reply));
            && |c'.actors| == |c.actors| && c'.actors[i].pc.Done?
            && RejectionEnds(c.world, a.sessionId, a.identity, c'.world, c'.actors[i].pc.result)
            && c'.log == c.log
  {
    hide Run, X.SoloActions, X.Rejection, RejectionEnds;
    X.RejectionIsARun(c, i, now, reply);
    RejectionIsExact(c.world, c.actors[i].sessionId, c.actors[i].identity);
  }

  lemma RejectionIsExact(w: World, id: string, identity: Option<string>)
    ensures var (w', r) := X.Rejection(w, id, identity); RejectionEnds(w, id, identity, w', r)
  {
  }
}
