/** The invariant holds after every run, and rows only move forward along it. */
module ApprovalRuns {
  import opened Values
  import opened ApprovalMachine
  import opened ApprovalInvariant
  import H = HitlStore
  import G = GrantRepo

  // ---------------------------------------------------------------- what rows keep

  ghost predicate SessionsKept(before: H.Table, after: H.Table) {
    forall id | id in before ::
      id in after && before[id].SameRequest(after[id]) && before[id].version <= after[id].version
  }

  lemma SessionStepKeeps(w: World, a: Actor, now: int, reply: Reply, id: string)
    requires id in w.sessions
    ensures var after := Step(w, a, now, reply).0.sessions;
            id in after && w.sessions[id].SameRequest(after[id]) && w.sessions[id].version <= after[id].version
  {
  }

  lemma GrantStepClimbs(w: World, a: Actor, now: int, reply: Reply, id: string)
    ensures var after := Step(w, a, now, reply).0.grants;
            && (id in after <==> id in w.grants)
            && (id in w.grants ==> G.Climbs(w.grants[id], after[id]))
  {
  }

  lemma StepMovesForward(w: World, a: Actor, now: int, reply: Reply)
    ensures SessionsKept(w.sessions, Step(w, a, now, reply).0.sessions)
    ensures G.TableClimbs(w.grants, Step(w, a, now, reply).0.grants)
    ensures Step(w, a, now, reply).0.grants.Keys == w.grants.Keys
  {
    var w' := Step(w, a, now, reply).0;
    forall id | id in w.sessions
      ensures id in w'.sessions && w.sessions[id].SameRequest(w'.sessions[id]) && w.sessions[id].version <= w'.sessions[id].version
    {
      SessionStepKeeps(w, a, now, reply, id);
    }
    forall id
      ensures (id in w'.grants <==> id in w.grants) && (id in w.grants ==> G.Climbs(w.grants[id], w'.grants[id]))
    {
      GrantStepClimbs(w, a, now, reply, id);
    }
  }

  lemma ApplyMovesForward(c: Config, action: Action)
    ensures SessionsKept(c.world.sessions, Apply(c, action).world.sessions)
    ensures G.TableClimbs(c.world.grants, Apply(c, action).world.grants)
  {
    hide NextPc, SessionsAfter, GrantsAfter, KeysAfter;
    if action.Advance? && action.i < |c.actors| {
      StepMovesForward(c.world, c.actors[action.i], action.now, action.reply);
    }
  }

  lemma ClimbingKeepsKeysUnique(before: G.Table, after: G.Table)
    requires G.KeysUnique(before) && G.TableClimbs(before, after) && before.Keys == after.Keys
    ensures G.KeysUnique(after)
  {
    forall x, y | x in after && y in after && after[x].idempotencyKey == after[y].idempotencyKey
      ensures x == y
    {
      assert G.Climbs(before[x], after[x]) && G.Climbs(before[y], after[y]);
    }
  }

  // ---------------------------------------------------------------- the invariant, action by action

  lemma EntryStaysOk(w: World, actors: seq<Actor>, w': World, actors': seq<Actor>, e: Sent)
    requires EntryOk(w, actors, e)
    requires SessionsKept(w.sessions, w'.sessions) && G.TableClimbs(w.grants, w'.grants)
    requires e.sender < |actors'|
    requires actors'[e.sender].(pc := actors[e.sender].pc) == actors[e.sender]
    requires HasDispatched(actors'[e.sender])
    ensures EntryOk(w', actors', e)
  {
    assert G.Climbs(w.grants[e.sessionId], w'.grants[e.sessionId]);
  }

  lemma LogStaysOk(c: Config, action: Action)
    requires LogOk(c.world, c.actors, c.log)
    ensures LogOk(Apply(c, action).world, Apply(c, action).actors, c.log)
  {
    hide NextPc, SessionsAfter, GrantsAfter, KeysAfter, SessionsKept, G.TableClimbs, HasDispatched, ClaimedFor;
    var c' := Apply(c, action);
    ApplyMovesForward(c, action);
    forall k | 0 <= k < |c.log|
      ensures EntryOk(c'.world, c'.actors, c.log[k])
    {
      var e := c.log[k];
      assert EntryOk(c.world, c.actors, e);
      if action.Advance? && action.i == e.sender {
        DispatchIsLasting(c.world, c.actors[action.i], action.now, action.reply);
      }
      EntryStaysOk(c.world, c.actors, c'.world, c'.actors, e);
    }
  }

  lemma NewSessionRows(s: H.Session, g: Option<G.Grant>)
    requires s.status == H.Pending && s.version == 1 && RowsOk(None, g)
    ensures RowsOk(Some(s), g)
  {
  }

  lemma NewSessionActor(a: Actor, s: H.Session, g: Option<G.Grant>)
    requires s.status == H.Pending && s.version == 1 && RowsOk(None, g) && ActorOk(a, None, g)
    ensures ActorOk(a, Some(s), g)
  {
  }

  lemma NewGrantRows(row: Option<H.Session>, g: G.Grant)
    requires g.status == G.Pending && g.version == 1 && RowsOk(row, None)
    ensures RowsOk(row, Some(g))
  {
  }

  lemma NewGrantActor(a: Actor, row: Option<H.Session>, g: G.Grant)
    requires g.status == G.Pending && g.version == 1 && RowsOk(row, None) && ActorOk(a, row, None)
    ensures ActorOk(a, row, Some(g))
  {
  }

  lemma InsertSessionKeepsInv(c: Config, id: string, s: H.Session)
    requires Inv(c)
    ensures Inv(Apply(c, InsertSession(id, s)))
  {
    hide RowsOk, ActorOk, LogOk;
    var c' := Apply(c, InsertSession(id, s));
    forall x
      ensures GrantRow(c'.world, x) == GrantRow(c.world, x)
      ensures SessionRow(c'.world, x) != SessionRow(c.world, x) ==>
                SessionRow(c.world, x) == None && SessionRow(c'.world, x) == Some(s.(status := H.Pending, version := 1))
    {
    }
    forall x
      ensures RowsOk(SessionRow(c'.world, x), GrantRow(c'.world, x))
    {
      assert RowsOk(SessionRow(c.world, x), GrantRow(c.world, x));
      if SessionRow(c'.world, x) != SessionRow(c.world, x) {
        NewSessionRows(s.(status := H.Pending, version := 1), GrantRow(c.world, x));
      }
    }
    forall i | 0 <= i < |c'.actors|
      ensures var a := c'.actors[i];
              ActorOk(a, SessionRow(c'.world, a.sessionId), GrantRow(c'.world, a.sessionId))
    {
      var a := c.actors[i];
      var x := a.sessionId;
      assert ActorOk(a, SessionRow(c.world, x), GrantRow(c.world, x));
      if SessionRow(c'.world, x) != SessionRow(c.world, x) {
        assert RowsOk(SessionRow(c.world, x), GrantRow(c.world, x));
        NewSessionActor(a, s.(status := H.Pending, version := 1), GrantRow(c.world, x));
      }
    }
    LogStaysOk(c, InsertSession(id, s));
  }

  lemma InsertGrantKeepsInv(c: Config, id: string, g: G.Grant)
    requires Inv(c)
    ensures Inv(Apply(c, InsertGrant(id, g)))
  {
    hide RowsOk, ActorOk, LogOk;
    var c' := Apply(c, InsertGrant(id, g));
    forall x
      ensures SessionRow(c'.world, x) == SessionRow(c.world, x)
      ensures GrantRow(c'.world, x) != GrantRow(c.world, x) ==>
                GrantRow(c.world, x) == None && GrantRow(c'.world, x) == Some(g.(status := G.Pending, version := 1, consumingAt := None))
    {
    }
    forall x
      ensures RowsOk(SessionRow(c'.world, x), GrantRow(c'.world, x))
    {
      assert RowsOk(SessionRow(c.world, x), GrantRow(c.world, x));
      if GrantRow(c'.world, x) != GrantRow(c.world, x) {
        NewGrantRows(SessionRow(c.world, x), g.(status := G.Pending, version := 1, consumingAt := None));
      }
    }
    forall i | 0 <= i < |c'.actors|
      ensures var a := c'.actors[i];
              ActorOk(a, SessionRow(c'.world, a.sessionId), GrantRow(c'.world, a.sessionId))
    {
      var a := c.actors[i];
      var x := a.sessionId;
      assert ActorOk(a, SessionRow(c.world, x), GrantRow(c.world, x));
      if GrantRow(c'.world, x) != GrantRow(c.world, x) {
        assert RowsOk(SessionRow(c.world, x), GrantRow(c.world, x));
        NewGrantActor(a, SessionRow(c.world, x), g.(status := G.Pending, version := 1, consumingAt := None));
      }
    }
    LogStaysOk(c, InsertGrant(id, g));
  }

  lemma SweptRows(row: Option<H.Session>, g: Option<G.Grant>)
    requires RowsOk(row, g) && row.Some? && row.value.status == H.Pending
    ensures RowsOk(Some(row.value.(status := H.Expired)), g)
  {
  }

  lemma SweptActor(a: Actor, row: Option<H.Session>, g: Option<G.Grant>)
    requires RowsOk(row, g) && ActorOk(a, row, g)
    requires row.Some? && row.value.status == H.Pending
    ensures ActorOk(a, Some(row.value.(status := H.Expired)), g)
  {
  }

  lemma SweepKeepsInv(c: Config, now: int)
    requires Inv(c)
    ensures Inv(Apply(c, Sweep(now)))
  {
    hide RowsOk, ActorOk, LogOk;
    var c' := Apply(c, Sweep(now));
    forall x
      ensures GrantRow(c'.world, x) == GrantRow(c.world, x)
      ensures SessionRow(c'.world, x) != SessionRow(c.world, x) ==>
                && x in c.world.sessions && c.world.sessions[x].status == H.Pending
                && SessionRow(c'.world, x) == Some(c.world.sessions[x].(status := H.Expired))
    {
    }
    forall x
      ensures RowsOk(SessionRow(c'.world, x), GrantRow(c'.world, x))
    {
      assert RowsOk(SessionRow(c.world, x), GrantRow(c.world, x));
      if SessionRow(c'.world, x) != SessionRow(c.world, x) {
        SweptRows(SessionRow(c.world, x), GrantRow(c.world, x));
      }
    }
    forall i | 0 <= i < |c'.actors|
      ensures var a := c'.actors[i];
              ActorOk(a, SessionRow(c'.world, a.sessionId), GrantRow(c'.world, a.sessionId))
    {
      var a := c.actors[i];
      var x := a.sessionId;
      assert ActorOk(a, SessionRow(c.world, x), GrantRow(c.world, x));
      if SessionRow(c'.world, x) != SessionRow(c.world, x) {
        assert RowsOk(SessionRow(c.world, x), GrantRow(c.world, x));
        SweptActor(a, SessionRow(c.world, x), GrantRow(c.world, x));
      }
    }
    LogStaysOk(c, Sweep(now));
  }

  lemma OthersUseKeysKeepsInv(c: Config, action: Action)
    requires Inv(c) && action.OthersUseKeys?
    ensures Inv(Apply(c, action))
  {
    var c' := Apply(c, action);
    forall x
      ensures RowsOk(SessionRow(c'.world, x), GrantRow(c'.world, x))
    {
      assert RowsOk(SessionRow(c.world, x), GrantRow(c.world, x));
    }
    LogStaysOk(c, action);
  }

  lemma StartKeepsInv(c: Config, decision: Decision, id: string, identity: Option<string>)
    requires Inv(c)
    ensures Inv(Apply(c, Start(decision, id, identity)))
  {
    hide RowsOk, LogOk;
    LogStaysOk(c, Start(decision, id, identity));
  }

  lemma AdvanceKeepsRows(c: Config, i: nat, now: int, reply: Reply, id: string)
    requires Inv(c) && i < |c.actors|
    ensures var w' := Step(c.world, c.actors[i], now, reply).0;
            RowsOk(SessionRow(w', id), GrantRow(w', id))
  {
    var a := c.actors[i];
    assert RowsOk(SessionRow(c.world, id), GrantRow(c.world, id));
    if id == a.sessionId {
      StepOwn(c.world, a, now, reply);
    } else {
      StepFrame(c.world, a, now, reply, id);
    }
  }

  lemma AdvanceKeepsActor(c: Config, i: nat, now: int, reply: Reply, j: nat)
    requires Inv(c) && i < |c.actors| && j < |c.actors|
    ensures var c' := Apply(c, Advance(i, now, reply));
            var b := c'.actors[j];
            && ActorOk(b, SessionRow(c'.world, b.sessionId), GrantRow(c'.world, b.sessionId))
            && (i != j && c.actors[i].sessionId == b.sessionId ==> !(HoldsGrant(c'.actors[i]) && HoldsGrant(b)))
  {
    hide RowsOk, ActorOk, LogOk, NextPc, SessionsAfter, GrantsAfter, KeysAfter, HoldsGrant;
    var a, b := c.actors[i], c.actors[j];
    assert RowsOk(SessionRow(c.world, a.sessionId), GrantRow(c.world, a.sessionId));
    if i == j {
      StepOwn(c.world, a, now, reply);
    } else if a.sessionId == b.sessionId {
      assert !(HoldsGrant(a) && HoldsGrant(b));
      StepOther(c.world, a, b, now, reply);
    } else {
      StepFrame(c.world, a, now, reply, b.sessionId);
    }
  }

  lemma DispatchIsLasting(w: World, a: Actor, now: int, reply: Reply)
    requires HasDispatched(a)
    ensures HasDispatched(a.(pc := Step(w, a, now, reply).1))
  {
  }

  lemma SendingIsRecorded(c: Config, i: nat, now: int, reply: Reply)
    requires Inv(c) && i < |c.actors| && c.actors[i].pc.Dispatch?
    ensures var c' := Apply(c, Advance(i, now, reply));
            |c'.log| == |c.log| + 1 && EntryOk(c'.world, c'.actors, c'.log[|c.log|]) && c'.log[|c.log|].sender == i
  {
    var a := c.actors[i];
    assert ActorOk(a, SessionRow(c.world, a.sessionId), GrantRow(c.world, a.sessionId));
  }

  lemma AdvanceKeepsLog(c: Config, i: nat, now: int, reply: Reply)
    requires Inv(c) && i < |c.actors|
    ensures var c' := Apply(c, Advance(i, now, reply)); LogOk(c'.world, c'.actors, c'.log)
  {
    hide NextPc, SessionsAfter, GrantsAfter, KeysAfter, ActorOk, RowsOk, ClaimedFor;
    var c' := Apply(c, Advance(i, now, reply));
    LogStaysOk(c, Advance(i, now, reply));
    if c.actors[i].pc.Dispatch? {
      SendingIsRecorded(c, i, now, reply);
      forall k | 0 <= k < |c.log|
        ensures c.log[k].sender != i
      {
        assert EntryOk(c.world, c.actors, c.log[k]);
      }
    }
  }

  lemma OnlyDispatchDispatches(w: World, a: Actor, now: int, reply: Reply)
    requires !HasDispatched(a) && HasDispatched(a.(pc := Step(w, a, now, reply).1))
    ensures a.pc.Dispatch?
  {
  }

  lemma AdvanceKeepsLogComplete(c: Config, i: nat, now: int, reply: Reply)
    requires LogComplete(c.actors, c.log) && i < |c.actors|
    ensures var c' := Apply(c, Advance(i, now, reply)); LogComplete(c'.actors, c'.log)
  {
    hide NextPc, SessionsAfter, GrantsAfter, KeysAfter, HasDispatched;
    var c' := Apply(c, Advance(i, now, reply));
    forall j | 0 <= j < |c'.actors| && HasDispatched(c'.actors[j])
      ensures exists k | 0 <= k < |c'.log| :: c'.log[k].sender == j
    {
      if HasDispatched(c.actors[j]) {
        var k :| 0 <= k < |c.log| && c.log[k].sender == j;
        assert c'.log[k] == c.log[k];
      } else {
        OnlyDispatchDispatches(c.world, c.actors[i], now, reply);
        assert c'.log[|c.log|].sender == i;
      }
    }
  }

  lemma AdvanceKeepsInv(c: Config, i: nat, now: int, reply: Reply)
    requires Inv(c) && i < |c.actors|
    ensures Inv(Apply(c, Advance(i, now, reply)))
  {
    hide RowsOk, ActorOk, LogOk, NextPc, SessionsAfter, GrantsAfter, KeysAfter, HoldsGrant;
    var c' := Apply(c, Advance(i, now, reply));
    forall id
      ensures RowsOk(SessionRow(c'.world, id), GrantRow(c'.world, id))
    {
      AdvanceKeepsRows(c, i, now, reply, id);
    }
    forall j | 0 <= j < |c'.actors|
      ensures var b := c'.actors[j];
              && ActorOk(b, SessionRow(c'.world, b.sessionId), GrantRow(c'.world, b.sessionId))
              && (i != j && c.actors[i].sessionId == b.sessionId ==> !(HoldsGrant(c'.actors[i]) && HoldsGrant(b)))
    {
      AdvanceKeepsActor(c, i, now, reply, j);
    }
    assert OneHolder(c'.actors);
    StepMovesForward(c.world, c.actors[i], now, reply);
    ClimbingKeepsKeysUnique(c.world.grants, c'.world.grants);
    AdvanceKeepsLog(c, i, now, reply);
    AdvanceKeepsLogComplete(c, i, now, reply);
  }

  lemma ApplyKeepsInv(c: Config, action: Action)
    requires Inv(c)
    ensures Inv(Apply(c, action))
  {
    match action
    case InsertSession(id, s) => InsertSessionKeepsInv(c, id, s);
    case InsertGrant(id, g) => InsertGrantKeepsInv(c, id, g);
    case Sweep(now) => SweepKeepsInv(c, now);
    case OthersUseKeys(_) => OthersUseKeysKeepsInv(c, action);
    case Start(decision, id, identity) => StartKeepsInv(c, decision, id, identity);
    case Advance(i, now, reply) => if i < |c.actors| { AdvanceKeepsInv(c, i, now, reply); }
  }

  // ---------------------------------------------------------------- whole runs

  /** The invariant holds in every configuration any run reaches. */
  lemma {:induction false} RunKeepsInv(c: Config, actions: seq<Action>)
    requires Inv(c)
    ensures Inv(Run(c, actions))
    decreases |actions|
  {
    if actions != [] {
      ApplyKeepsInv(c, actions[0]);
      RunKeepsInv(Apply(c, actions[0]), actions[1..]);
    }
  }

  lemma EveryRunKeepsInv(actions: seq<Action>)
    ensures Inv(Run(EMPTY, actions))
  {
    RunKeepsInv(EMPTY, actions);
  }

  lemma RunsFirst(c: Config, action: Action, rest: seq<Action>)
    ensures Run(c, [action] + rest) == Run(Apply(c, action), rest)
  {
    hide Apply;
    assert ([action] + rest)[1..] == rest;
  }

  lemma {:induction false} RunConcat(c: Config, first: seq<Action>, second: seq<Action>)
    ensures Run(c, first + second) == Run(Run(c, first), second)
    decreases |first|
  {
    if first == [] {
      assert first + second == second;
    } else {
      assert (first + second)[1..] == first[1..] + second;
      RunConcat(Apply(c, first[0]), first[1..], second);
    }
  }

  /** Along any run no request column of any row changes, session versions never fall, and every grant
      stays or climbs its fixed rank. */
  lemma {:induction false} RunMovesForward(c: Config, actions: seq<Action>)
    ensures SessionsKept(c.world.sessions, Run(c, actions).world.sessions)
    ensures G.TableClimbs(c.world.grants, Run(c, actions).world.grants)
    decreases |actions|
  {
    hide Apply;
    if actions == [] {
    } else {
      var c1 := Apply(c, actions[0]);
      ApplyMovesForward(c, actions[0]);
      RunMovesForward(c1, actions[1..]);
      forall id | id in c.world.grants
        ensures id in Run(c, actions).world.grants && G.Climbs(c.world.grants[id], Run(c, actions).world.grants[id])
      {
        assert G.Climbs(c.world.grants[id], c1.world.grants[id]);
        assert G.Climbs(c1.world.grants[id], Run(c1, actions[1..]).world.grants[id]);
      }
    }
  }
}
