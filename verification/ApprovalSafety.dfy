/** What the approval protocol guarantees on every interleaving with crashes. */
module ApprovalSafety {
  import opened Values
  import opened ApprovalMachine
  import opened ApprovalInvariant
  import opened ApprovalRuns
  import H = HitlStore
  import G = GrantRepo

  // ---------------------------------------------------------------- at most one dispatch

  /** No session and no grant idempotency key is ever dispatched twice by the executor. */
  lemma AtMostOneDispatch(actions: seq<Action>, j: nat, k: nat)
    requires j < k < |Run(EMPTY, actions).log|
    ensures var log := Run(EMPTY, actions).log;
            && log[j].sessionId != log[k].sessionId
            && log[j].grant.idempotencyKey != log[k].grant.idempotencyKey
  {
    EveryRunKeepsInv(actions);
    var c := Run(EMPTY, actions);
    var e, f := c.log[j], c.log[k];
    assert EntryOk(c.world, c.actors, e) && EntryOk(c.world, c.actors, f);
    DispatchersHold(c, e.sender);
    DispatchersHold(c, f.sender);
    assert e.sender != f.sender;
    assert e.sessionId != f.sessionId;
  }

  predicate HasOwnKey(s: H.Session) {
    s.idempotencyKey.Some? && s.idempotencyKey.value != ""
  }

  /** The durable key under which a dispatch was reserved. */
  function DurableKey(e: Sent): string {
    KeyOf(e.sessionId, e.session)
  }

  lemma DurableKeysDiffer(actions: seq<Action>, j: nat, k: nat)
    requires j < k < |Run(EMPTY, actions).log|
    ensures var log := Run(EMPTY, actions).log;
            (HasOwnKey(log[j].session) <==> HasOwnKey(log[k].session)) ==> DurableKey(log[j]) != DurableKey(log[k])
  {
    EveryRunKeepsInv(actions);
    AtMostOneDispatch(actions, j, k);
    var c := Run(EMPTY, actions);
    assert EntryOk(c.world, c.actors, c.log[j]) && EntryOk(c.world, c.actors, c.log[k]);
  }

  /** In every run the executor uses a durable key for at most one dispatch of sessions that carry a key,
      as every session of the endpoint does.  A session without one falls back on its id, so that no key
      at all is used for more than two. */
  lemma ExecutorUsesAKeyOnce(actions: seq<Action>, key: string)
    ensures var log := Run(EMPTY, actions).log;
            && (forall j, k | 0 <= j < k < |log| && HasOwnKey(log[j].session) && HasOwnKey(log[k].session) ::
                  !(DurableKey(log[j]) == key && DurableKey(log[k]) == key))
            && (forall i, j, k | 0 <= i < j < k < |log| ::
                  !(DurableKey(log[i]) == key && DurableKey(log[j]) == key && DurableKey(log[k]) == key))
  {
    hide DurableKey, Run;
    var log := Run(EMPTY, actions).log;
    forall j, k | 0 <= j < k < |log|
      ensures (HasOwnKey(log[j].session) <==> HasOwnKey(log[k].session)) ==> DurableKey(log[j]) != DurableKey(log[k])
    {
      DurableKeysDiffer(actions, j, k);
    }
  }

  lemma DispatchersHold(c: Config, i: nat)
    requires i < |c.actors| && c.actors[i].decision == Approve && HasDispatched(c.actors[i])
    ensures HoldsGrant(c.actors[i])
  {
  }

  // ---------------------------------------------------------------- sessions that are closed for good

  /** A decided row that is neither awaiting an outcome nor RESUMED. */
  predicate Closed(s: H.Session) {
    s.version >= 2 && s.status != H.Approved && s.status != H.Resumed
  }

  lemma StepKeepsClosed(w: World, a: Actor, now: int, reply: Reply)
    requires a.sessionId in w.sessions && Closed(w.sessions[a.sessionId])
    requires RowsOk(SessionRow(w, a.sessionId), GrantRow(w, a.sessionId))
    requires ActorOk(a, SessionRow(w, a.sessionId), GrantRow(w, a.sessionId))
    ensures SessionsAfter(w.sessions, a) == w.sessions
  {
    assert w.sessions[a.sessionId].version >= 4 ==> !w.sessions[a.sessionId].status.Pending?;
  }

  lemma ApplyKeepsClosed(c: Config, action: Action, id: string)
    requires Inv(c) && id in c.world.sessions && Closed(c.world.sessions[id])
    ensures var after := Apply(c, action).world.sessions; id in after && after[id] == c.world.sessions[id]
  {
    assert RowsOk(SessionRow(c.world, id), GrantRow(c.world, id));
    if action.Advance? && action.i < |c.actors| {
      var a := c.actors[action.i];
      if a.sessionId == id {
        StepKeepsClosed(c.world, a, action.now, action.reply);
      } else {
        StepFrame(c.world, a, action.now, action.reply, id);
        assert SessionRow(Apply(c, action).world, id) == SessionRow(c.world, id);
      }
    }
  }

  /** Once closed, a session row never changes again, whatever runs afterwards. */
  lemma {:induction false} ClosedIsFinal(c: Config, actions: seq<Action>, id: string)
    requires Inv(c) && id in c.world.sessions && Closed(c.world.sessions[id])
    ensures var after := Run(c, actions).world.sessions; id in after && after[id] == c.world.sessions[id]
    decreases |actions|
  {
    if actions != [] {
      ApplyKeepsClosed(c, actions[0], id);
      ApplyKeepsInv(c, actions[0]);
      ClosedIsFinal(Apply(c, actions[0]), actions[1..], id);
    }
  }

  /** A dispatched session got past its approval, and its row still shows it. */
  lemma DispatchedRow(c: Config, k: nat)
    requires Inv(c) && k < |c.log|
    ensures var id := c.log[k].sessionId;
            && id in c.world.sessions && id in c.world.grants
            && c.world.sessions[id].toolCallId != ""
            && (c.world.sessions[id].version == 2 ==> c.world.sessions[id].status == H.Approved)
            && c.world.sessions[id].version >= 2
            && G.Rank(c.world.grants[id].status) >= 2
            && c.world.grants[id].status != G.Rejected && c.world.grants[id].status != G.ReconciliationRequired
  {
    var e := c.log[k];
    assert EntryOk(c.world, c.actors, e);
    DispatchersHold(c, e.sender);
    var a := c.actors[e.sender];
    assert ActorOk(a, SessionRow(c.world, a.sessionId), GrantRow(c.world, a.sessionId));
  }

  /** A reject that wins its session update from a PENDING snapshot is final: nothing was or will be
      dispatched for that session, even if an approver had already moved the grant to APPROVED. */
  lemma RejectionIsFinal(before: seq<Action>, i: nat, now: int, reply: Reply, after: seq<Action>)
    requires var c := Run(EMPTY, before);
             && i < |c.actors|
             && c.actors[i].pc.RejectSession? && c.actors[i].pc.s.status == H.Pending
             && H.CanUpdate(c.world.sessions, c.actors[i].sessionId, c.actors[i].pc.s.version)
    ensures var id := Run(EMPTY, before).actors[i].sessionId;
            var c' := Run(EMPTY, before + [Advance(i, now, reply)] + after);
            && id in c'.world.sessions && c'.world.sessions[id].status == H.Rejected
            && forall k | 0 <= k < |c'.log| :: c'.log[k].sessionId != id
  {
    var c := Run(EMPTY, before);
    EveryRunKeepsInv(before);
    var a := c.actors[i];
    assert ActorOk(a, SessionRow(c.world, a.sessionId), GrantRow(c.world, a.sessionId));
    var step := [Advance(i, now, reply)];
    var mid := Apply(c, step[0]);
    ApplyKeepsInv(c, step[0]);
    assert Closed(mid.world.sessions[a.sessionId]);
    ClosedIsFinal(mid, after, a.sessionId);
    RunKeepsInv(mid, after);
    assert Run(mid, []) == mid;
    assert step[1..] == [];
    assert Run(c, step) == mid;
    RunConcat(EMPTY, before, step);
    RunConcat(EMPTY, before + step, after);
    var c' := Run(mid, after);
    forall k | 0 <= k < |c'.log|
      ensures c'.log[k].sessionId != a.sessionId
    {
      DispatchedRow(c', k);
    }
  }

  /** Conversely, a row that a dispatch has left closed is FAILED, or a RESUMED row relabelled later. */
  lemma ClosedAfterDispatch(actions: seq<Action>, k: nat)
    requires k < |Run(EMPTY, actions).log|
    ensures var c := Run(EMPTY, actions);
            var id := c.log[k].sessionId;
            && id in c.world.sessions
            && (Closed(c.world.sessions[id]) ==> c.world.sessions[id].status == H.Failed || c.world.sessions[id].version >= 4)
  {
    EveryRunKeepsInv(actions);
    var c := Run(EMPTY, actions);
    DispatchedRow(c, k);
    assert RowsOk(SessionRow(c.world, c.log[k].sessionId), GrantRow(c.world, c.log[k].sessionId));
  }

  /** The two late writes that a RESUMED row admits: by a reject, and by an approval that finds the session
      expired, each with a snapshot of the row as it is. */
  predicate Relabels(c: Config, action: Action, id: string)
    requires id in c.world.sessions
  {
    && action.Advance? && action.i < |c.actors|
    && var a := c.actors[action.i];
    && a.sessionId == id
    && (a.pc.RejectSession? || a.pc.WriteExpired?)
    && a.pc.s.version == c.world.sessions[id].version
  }

  lemma StepKeepsResumed(w: World, a: Actor)
    requires a.sessionId in w.sessions && w.sessions[a.sessionId].status == H.Resumed
    requires RowsOk(SessionRow(w, a.sessionId), GrantRow(w, a.sessionId))
    requires ActorOk(a, SessionRow(w, a.sessionId), GrantRow(w, a.sessionId))
    ensures SessionsAfter(w.sessions, a) != w.sessions
            <==> (a.pc.RejectSession? || a.pc.WriteExpired?) && a.pc.s.version == w.sessions[a.sessionId].version
  {
    var s := w.sessions[a.sessionId];
    assert s.version == 3 && Is(GrantRow(w, a.sessionId), G.Consumed);
    if (a.pc.RejectSession? || a.pc.WriteExpired?) && a.pc.s.version == s.version {
      assert SessionsAfter(w.sessions, a)[a.sessionId].version == 4;
    }
  }

  lemma OneRowChanges(t: H.Table, a: Actor)
    requires a.sessionId in t
    ensures SessionsAfter(t, a).Keys == t.Keys
    ensures forall id | id in t && id != a.sessionId :: SessionsAfter(t, a)[id] == t[id]
    ensures SessionsAfter(t, a)[a.sessionId] == t[a.sessionId] <==> SessionsAfter(t, a) == t
  {
  }

  lemma ResumedStep(c: Config, i: nat, now: int, reply: Reply, id: string)
    requires i < |c.actors| && id in c.world.sessions && c.world.sessions[id].status == H.Resumed
    requires RowsOk(SessionRow(c.world, id), GrantRow(c.world, id))
    requires ActorOk(c.actors[i], SessionRow(c.world, c.actors[i].sessionId), GrantRow(c.world, c.actors[i].sessionId))
    ensures var after := SessionsAfter(c.world.sessions, c.actors[i]);
            && id in after
            && (after[id] != c.world.sessions[id] <==> Relabels(c, Advance(i, now, reply), id))
  {
    var a := c.actors[i];
    if a.sessionId == id {
      StepKeepsResumed(c.world, a);
      OneRowChanges(c.world.sessions, a);
    } else {
      StepFrame(c.world, a, now, reply, id);
      assert SessionRow(Step(c.world, a, now, reply).0, id) == SessionRow(c.world, id);
    }
    hide SessionsAfter, ActorOk, RowsOk, NextPc;
  }

  lemma RelabelledRow(c: Config, action: Action, id: string)
    requires id in c.world.sessions && Relabels(c, action, id)
    ensures var after := Apply(c, action).world.sessions;
            id in after && after[id].status in {H.Rejected, H.Expired} && after[id].version == c.world.sessions[id].version + 1
  {
    hide NextPc, GrantsAfter, KeysAfter;
  }

  /** RESUMED is not final, and this is exactly when it is left: no other statement of any actor, no sweep
      and no insertion touches the row of an executed session. */
  lemma ResumedIsLeftIffRelabelled(actions: seq<Action>, action: Action, id: string)
    requires var t := Run(EMPTY, actions).world.sessions; id in t && t[id].status == H.Resumed
    ensures var c := Run(EMPTY, actions);
            var after := Apply(c, action).world.sessions;
            && id in after
            && (after[id] != c.world.sessions[id] <==> Relabels(c, action, id))
            && (Relabels(c, action, id) ==> after[id].status in {H.Rejected, H.Expired} && after[id].version == 4)
  {
    hide Run, SessionsAfter, GrantsAfter, KeysAfter, NextPc, ActorOk;
    EveryRunKeepsInv(actions);
    var c := Run(EMPTY, actions);
    assert RowsOk(SessionRow(c.world, id), GrantRow(c.world, id));
    if action.Advance? && action.i < |c.actors| {
      ResumedStep(c, action.i, action.now, action.reply, id);
    }
    if Relabels(c, action, id) {
      RelabelledRow(c, action, id);
    }
  }

  // ---------------------------------------------------------------- a claim runs to its end

  /** After a successful claim the read-back finds the CONSUMING row, and the last session write, at
      the snapshot's version plus one, succeeds: it leaves exactly the pair of rows the reply calls for. */
  lemma ClaimRunsToItsEnd(actions: seq<Action>, i: nat, now: int, reply: Reply)
    requires i < |Run(EMPTY, actions).actors|
    ensures var c := Run(EMPTY, actions);
            var a := c.actors[i];
            var id := a.sessionId;
            var c' := Apply(c, Advance(i, now, reply));
            && (a.pc.ReadBack? ==> c'.actors[i].pc.CheckKey?)
            && (a.pc.RecordSession? ==>
                  && id in c.world.sessions && c.world.sessions[id].version == a.pc.s.version + 1
                  && id in c'.world.sessions && c'.world.sessions[id].version == a.pc.s.version + 2
                  && id in c'.world.grants
                  && var (end, session, grant) := (c'.actors[i].pc, c'.world.sessions[id].status, c'.world.grants[id].status);
                  match a.pc.reply
                  case Success(content) => end == Done(Executed(content)) && session == H.Resumed && grant == G.Consumed
                  case Failure(error) => end == Done(ToolFailed(error)) && session == H.Failed && grant == G.Failed
                  case Raised => end == Done(OutcomeUnknown) && session == H.Failed && grant == G.Unknown)
            && (a.pc.DenySession? ==>
                  && H.CanUpdate(c.world.sessions, id, a.pc.s.version + 1)
                  && c'.world.sessions[id].status == H.Failed
                  && id in c'.world.grants && c'.world.grants[id].status == G.Failed)
  {
    hide Run, RowsOk;
    EveryRunKeepsInv(actions);
    var c := Run(EMPTY, actions);
    var a := c.actors[i];
    assert ActorOk(a, SessionRow(c.world, a.sessionId), GrantRow(c.world, a.sessionId));
  }

  /** From any tables, reachable or not: a named approver claims no grant that someone else approved. */
  lemma NoClaimForAnother(w: World, a: Actor, now: int, reply: Reply)
    requires a.pc.ClaimGrant? && a.identity.Some? && a.identity.value != ""
    requires a.sessionId in w.grants && w.grants[a.sessionId].approvingActorId !in {a.identity.value, ""}
    ensures NextPc(w, a, now, reply) == Done(GrantAlreadyConsumed) && GrantsAfter(w.grants, a, now) == w.grants
  {
  }

  /** A claim is refused only because the grant does not match the session or has expired: it is never
      refused because someone else took the grant. */
  lemma ClaimRefusedOnlyForMismatch(actions: seq<Action>, i: nat, now: int, reply: Reply)
    requires i < |Run(EMPTY, actions).actors| && Run(EMPTY, actions).actors[i].pc.ClaimGrant?
    ensures var c := Run(EMPTY, actions);
            var a := c.actors[i];
            && a.sessionId in c.world.grants
            && var g := c.world.grants[a.sessionId];
            (Apply(c, Advance(i, now, reply)).actors[i].pc == Done(GrantAlreadyConsumed)
             <==> !G.Matches(g, ClaimOf(a.sessionId, IdentityOf(a), a.pc.s)) || !G.Live(g, now))
  {
    EveryRunKeepsInv(actions);
    var c := Run(EMPTY, actions);
    var a := c.actors[i];
    assert ActorOk(a, SessionRow(c.world, a.sessionId), GrantRow(c.world, a.sessionId));
  }

  /** What an approval's result says about the two rows. */
  ghost predicate ResultRows(r: Result, s: Option<H.Session>, g: Option<G.Grant>) {
    && (r.Executed? ==> Is(g, G.Consumed) && s.Some? && (At(s, 3, H.Resumed) || (s.value.version >= 4 && Closed(s.value))))
    && (r.ToolFailed? || r.ReplayDenied? ==> Is(g, G.Failed) && At(s, 3, H.Failed))
    && (r.OutcomeUnknown? ==> Is(g, G.Unknown) && At(s, 3, H.Failed))
    && (r.Cached? ==> Is(g, G.Consuming) && At(s, 2, H.Approved))
    && (r.GrantAlreadyConsumed? ==> Is(g, G.Approved) && At(s, 2, H.Approved))
  }

  lemma DoneActorsRows(a: Actor, s: Option<H.Session>, g: Option<G.Grant>)
    requires a.decision == Approve && a.pc.Done? && ActorOk(a, s, g) && RowsOk(s, g)
    ensures ResultRows(a.pc.result, s, g)
  {
  }

  /** How the two rows stand after each way an approval can return, now and for ever.  An answer taken
      from the idempotency record leaves the grant CONSUMING and the session APPROVED. */
  lemma ResultsMatchRows(actions: seq<Action>, i: nat)
    requires var c := Run(EMPTY, actions); i < |c.actors| && c.actors[i].decision == Approve && c.actors[i].pc.Done?
    ensures var c := Run(EMPTY, actions);
            var a := c.actors[i];
            ResultRows(a.pc.result, SessionRow(c.world, a.sessionId), GrantRow(c.world, a.sessionId))
  {
    hide Run, ActorOk, RowsOk, ResultRows;
    EveryRunKeepsInv(actions);
    var c := Run(EMPTY, actions);
    var a := c.actors[i];
    assert RowsOk(SessionRow(c.world, a.sessionId), GrantRow(c.world, a.sessionId));
    DoneActorsRows(a, SessionRow(c.world, a.sessionId), GrantRow(c.world, a.sessionId));
  }

  /** An approval that has returned dispatched exactly one call if its result says what the tool did, and
      none otherwise. */
  lemma ResultTellsDispatch(actions: seq<Action>, i: nat)
    requires var c := Run(EMPTY, actions); i < |c.actors| && c.actors[i].pc.Done?
    ensures var c := Run(EMPTY, actions);
            var r := c.actors[i].pc.result;
            (exists k | 0 <= k < |c.log| :: c.log[k].sender == i) <==> r.Executed? || r.ToolFailed? || r.OutcomeUnknown?
  {
    hide Run, ActorOk, RowsOk;
    EveryRunKeepsInv(actions);
    var c := Run(EMPTY, actions);
    forall k | 0 <= k < |c.log|
      ensures c.log[k].sender < |c.actors| && HasDispatched(c.actors[c.log[k].sender])
    {
      assert EntryOk(c.world, c.actors, c.log[k]);
    }
  }

  // ---------------------------------------------------------------- what is dispatched

  /** A dispatched call is the one that was requested: it agrees with the session row as it stood at any
      earlier moment, and with its grant row; its approver is the actor whose run dispatched it; and the
      grant was live when it was claimed. */
  lemma DispatchedAsRequested(first: seq<Action>, second: seq<Action>, k: nat)
    requires k < |Run(EMPTY, first + second).log|
    requires Run(EMPTY, first + second).log[k].sessionId in Run(EMPTY, first).world.sessions
    requires Run(EMPTY, first + second).log[k].sessionId in Run(EMPTY, first).world.grants
    ensures var c := Run(EMPTY, first + second);
            var e := c.log[k];
            var s := Run(EMPTY, first).world.sessions[e.sessionId];
            var g := Run(EMPTY, first).world.grants[e.sessionId];
            && e.toolName == s.toolName == g.toolName
            && e.arguments == g.canonicalToolArgs
            && g.argumentDigest == Sha256(s.toolArgs)
            && (g.Linked() ==> e.arguments == s.toolArgs)
            && s.userId == g.requestingUserId && s.threadId == g.threadId
            && s.toolCallId == g.toolCallId && s.toolCallId != ""
            && e.sender < |c.actors| && c.actors[e.sender].sessionId == e.sessionId
            && c.actors[e.sender].identity == Some(e.grant.approvingActorId)
            && e.sessionId in c.world.grants && c.world.grants[e.sessionId].approvingActorId == e.grant.approvingActorId
            && e.grant.consumingAt.Some? && G.Live(g, e.grant.consumingAt.value)
  {
    EveryRunKeepsInv(first + second);
    RunConcat(EMPTY, first, second);
    RunMovesForward(Run(EMPTY, first), second);
    var c := Run(EMPTY, first + second);
    var e := c.log[k];
    assert EntryOk(c.world, c.actors, e);
    DispatchedRow(c, k);
    DispatchersHold(c, e.sender);
    var a := c.actors[e.sender];
    assert ActorOk(a, SessionRow(c.world, a.sessionId), GrantRow(c.world, a.sessionId));
    assert G.Climbs(Run(EMPTY, first).world.grants[e.sessionId], c.world.grants[e.sessionId]);
  }

  /** A session stored with an empty tool-call id is never dispatched, and its grant, which starts
      PENDING, is never approved, claimed or consumed. */
  lemma EmptyCallIdNeverRuns(actions: seq<Action>, id: string)
    requires id in Run(EMPTY, actions).world.sessions && Run(EMPTY, actions).world.sessions[id].toolCallId == ""
    ensures var c := Run(EMPTY, actions);
            && (forall k | 0 <= k < |c.log| :: c.log[k].sessionId != id)
            && (id in c.world.grants ==> c.world.grants[id].status in {G.Pending, G.Rejected, G.ReconciliationRequired})
  {
    EveryRunKeepsInv(actions);
    var c := Run(EMPTY, actions);
    assert RowsOk(SessionRow(c.world, id), GrantRow(c.world, id));
    forall k | 0 <= k < |c.log|
      ensures c.log[k].sessionId != id
    {
      DispatchedRow(c, k);
    }
  }

  /** Between any two moments of a run no grant row disappears or is rewritten: statuses climb the fixed
      rank, side exits are entered only before a claim, and keys stay unique. */
  lemma GrantsOnlyClimb(first: seq<Action>, second: seq<Action>)
    ensures G.TableClimbs(Run(EMPTY, first).world.grants, Run(EMPTY, first + second).world.grants)
    ensures G.KeysUnique(Run(EMPTY, first + second).world.grants)
  {
    RunConcat(EMPTY, first, second);
    RunMovesForward(Run(EMPTY, first), second);
    EveryRunKeepsInv(first + second);
  }
}
