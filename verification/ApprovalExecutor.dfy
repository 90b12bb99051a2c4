/** The executor itself: `approve` and `reject` as programs over the three stores, shown to be exactly an
    uninterrupted run of one actor of the approval machine. */
module ApprovalExecutor {
  import opened Values
  import opened ApprovalMachine
  import opened ApprovalInvariant
  import R = ApprovalRuns
  import H = HitlStore
  import G = GrantRepo
  import I = IdempotencyStore

  // ---------------------------------------------------------------- one actor left alone

  /** How many statements an actor still has before it, at most. */
  function Remaining(pc: Pc): nat {
    match pc
    case LoadSession => 12
    case ApproveGrant(_) => 11
    case ApproveSession(_) => 10
    case ClaimGrant(_) => 9
    case ReadBack(_) => 8
    case CheckKey(_, _) => 7
    case ReserveKey(_, _) => 6
    case Dispatch(_, _) => 5
    case RecordKey(_, _) => 4
    case RecordGrant(_, _) => 3
    case RecordSession(_, _) => 1
    case WriteReconciliation(_) => 2
    case MarkReconciliation(_) => 1
    case DenyGrant(_, _) => 2
    case DenySession(_, _) => 1
    case RejectSession(_) => 2
    case RejectGrant(_) => 1
    case WriteExpired(_) => 1
    case Done(_) => 0
  }

  /** The actor's statements one after the other, the first read at `loadedAt`, the claim at `claimedAt`. */
  function Solo(w: World, a: Actor, loadedAt: int, claimedAt: int, reply: Reply): (World, Result)
    decreases Remaining(a.pc)
  {
    if a.pc.Done? then (w, a.pc.result)
    else
      var (w', pc) := Step(w, a, if a.pc.LoadSession? then loadedAt else claimedAt, reply);
      Solo(w', a.(pc := pc), loadedAt, claimedAt, reply)
  }

  /** What one statement of an actor, number `i`, hands to the tool server. */
  function Handed(a: Actor, i: nat): seq<Sent> {
    if a.pc.Dispatch? then [Sent(i, a.sessionId, a.pc.s, a.pc.g, a.pc.g.toolName, a.pc.g.canonicalToolArgs)] else []
  }

  /** What the lone actor hands over on its way. */
  function SoloLog(w: World, a: Actor, i: nat, loadedAt: int, claimedAt: int, reply: Reply): seq<Sent>
    decreases Remaining(a.pc)
  {
    if a.pc.Done? then []
    else
      var (w', pc) := Step(w, a, if a.pc.LoadSession? then loadedAt else claimedAt, reply);
      Handed(a, i) + SoloLog(w', a.(pc := pc), i, loadedAt, claimedAt, reply)
  }

  /** One statement of a lone actor, spelled out for the proofs below. */
  lemma SoloStep(w: World, a: Actor, loadedAt: int, claimedAt: int, reply: Reply)
    requires !a.pc.Done?
    ensures var now := if a.pc.LoadSession? then loadedAt else claimedAt;
            && Remaining(NextPc(w, a, now, reply)) < Remaining(a.pc)
            && Solo(w, a, loadedAt, claimedAt, reply)
               == Solo(Step(w, a, now, reply).0, a.(pc := NextPc(w, a, now, reply)), loadedAt, claimedAt, reply)
  {
  }

  lemma SoloLogStep(w: World, a: Actor, i: nat, loadedAt: int, claimedAt: int, reply: Reply)
    requires !a.pc.Done?
    ensures var now := if a.pc.LoadSession? then loadedAt else claimedAt;
            SoloLog(w, a, i, loadedAt, claimedAt, reply)
            == Handed(a, i) + SoloLog(Step(w, a, now, reply).0, a.(pc := NextPc(w, a, now, reply)), i, loadedAt, claimedAt, reply)
  {
    SoloStep(w, a, loadedAt, claimedAt, reply);
  }

  /** The actions by which the machine lets actor `i` run undisturbed to its end. */
  function SoloActions(c: Config, i: nat, loadedAt: int, claimedAt: int, reply: Reply): (actions: seq<Action>)
    requires i < |c.actors|
    decreases Remaining(c.actors[i].pc)
  {
    if c.actors[i].pc.Done? then []
    else
      var action := Advance(i, if c.actors[i].pc.LoadSession? then loadedAt else claimedAt, reply);
      [action] + SoloActions(Apply(c, action), i, loadedAt, claimedAt, reply)
  }

  lemma NothingLeft(c: Config, i: nat, loadedAt: int, claimedAt: int, reply: Reply)
    requires i < |c.actors| && c.actors[i].pc.Done?
    ensures Run(c, SoloActions(c, i, loadedAt, claimedAt, reply)) == c
    ensures Solo(c.world, c.actors[i], loadedAt, claimedAt, reply) == (c.world, c.actors[i].pc.result)
    ensures SoloLog(c.world, c.actors[i], i, loadedAt, claimedAt, reply) == []
    ensures c.actors[i := c.actors[i].(pc := Done(c.actors[i].pc.result))] == c.actors && c.log + [] == c.log
  {
  }

  lemma OneAdvance(c: Config, i: nat, now: int, reply: Reply)
    requires i < |c.actors|
    ensures var c' := Apply(c, Advance(i, now, reply));
            var (w, pc) := Step(c.world, c.actors[i], now, reply);
            && c'.world == w && |c'.actors| == |c.actors| && c'.actors == c.actors[i := c.actors[i].(pc := pc)]
            && pc == NextPc(c.world, c.actors[i], now, reply)
            && c'.log == c.log + Handed(c.actors[i], i)
  {
  }

  /** Running alone is one of the interleavings: the machine reaches the same world and result, and logs
      the same call. */
  lemma {:induction false} SoloIsARun(c: Config, i: nat, loadedAt: int, claimedAt: int, reply: Reply)
    requires i < |c.actors|
    ensures var c' := Run(c, SoloActions(c, i, loadedAt, claimedAt, reply));
            var (w, r) := Solo(c.world, c.actors[i], loadedAt, claimedAt, reply);
            && c'.world == w
            && c'.actors == c.actors[i := c.actors[i].(pc := Done(r))]
            && c'.log == c.log + SoloLog(c.world, c.actors[i], i, loadedAt, claimedAt, reply)
    decreases Remaining(c.actors[i].pc)
  {
    hide Solo, SoloLog, SoloActions, Step, Apply, Run, Remaining, NextPc, Handed;
    if c.actors[i].pc.Done? {
      NothingLeft(c, i, loadedAt, claimedAt, reply);
    } else {
      var a := c.actors[i];
      var action := Advance(i, if a.pc.LoadSession? then loadedAt else claimedAt, reply);
      var c1 := Apply(c, action);
      SoloStep(c.world, a, loadedAt, claimedAt, reply);
      SoloLogStep(c.world, a, i, loadedAt, claimedAt, reply);
      OneAdvance(c, i, action.now, reply);
      ActionsStep(c, i, loadedAt, claimedAt, reply);
      R.RunsFirst(c, action, SoloActions(c1, i, loadedAt, claimedAt, reply));
      SoloIsARun(c1, i, loadedAt, claimedAt, reply);
      assert c.log + (Handed(a, i) + SoloLog(c1.world, c1.actors[i], i, loadedAt, claimedAt, reply))
          == c.log + Handed(a, i) + SoloLog(c1.world, c1.actors[i], i, loadedAt, claimedAt, reply);
    }
  }

  lemma ActionsStep(c: Config, i: nat, loadedAt: int, claimedAt: int, reply: Reply)
    requires i < |c.actors| && !c.actors[i].pc.Done?
    ensures var action := Advance(i, if c.actors[i].pc.LoadSession? then loadedAt else claimedAt, reply);
            && i < |Apply(c, action).actors|
            && SoloActions(c, i, loadedAt, claimedAt, reply) == [action] + SoloActions(Apply(c, action), i, loadedAt, claimedAt, reply)
  {
  }

  // ---------------------------------------------------------------- the whole of an undisturbed call

  /** The three records of a reply: key, grant, session. */
  function ReplyRecorded(w: World, id: string, s: H.Session, reply: Reply): (World, Result) {
    (World(H.Updated(w.sessions, id, SessionAfter(reply), s.version + 1),
           G.Marked(w.grants, id, {G.Consuming}, GrantAfter(reply)),
           KeyRecorded(w.keys, KeyOf(id, s), reply)),
     ResultAfter(reply))
  }

  function ReplayRefused(w: World, id: string, s: H.Session, status: I.Status): (World, Result) {
    (World(H.Updated(w.sessions, id, H.Failed, s.version + 1), G.Marked(w.grants, id, {G.Consuming}, G.Failed), w.keys),
     ReplayDenied(status))
  }

  function ClaimExecuted(w: World, id: string, s: H.Session, reply: Reply): (World, Result) {
    var key := KeyOf(id, s);
    if key in w.keys && w.keys[key].status == I.Succeeded then (w, Cached(AnswerOf(w.keys[key])))
    else if key in w.keys && w.keys[key].status != I.Failed then ReplayRefused(w, id, s, w.keys[key].status)
    else ReplyRecorded(w.(keys := I.AfterReserve(w.keys, key, s.toolName, s.toolArgs)), id, s, reply)
  }

  function SessionClaimed(w: World, id: string, actor: string, s: H.Session, now: int, reply: Reply): (World, Result) {
    var claim := ClaimOf(id, actor, s);
    if !G.CanConsume(w.grants, id, claim, now) then (w, GrantAlreadyConsumed)
    else ClaimExecuted(w.(grants := G.Claimed(w.grants, id, claim, now)), id, s, reply)
  }

  function SnapshotApproved(w: World, id: string, actor: string, s: H.Session, now: int, reply: Reply): (World, Result) {
    if !G.CanApprove(w.grants, id, 1) then (w, GrantApprovalFailed)
    else
      var w1 := w.(grants := G.ApprovedBy(w.grants, id, actor, 1));
      if !H.CanUpdate(w.sessions, id, s.version) then (w1, SessionUpdateFailed)
      else SessionClaimed(w1.(sessions := H.Updated(w.sessions, id, H.Approved, s.version)), id, actor, s, now, reply)
  }

  /** Everything `approve` does when nothing interferes. */
  function Approval(w: World, id: string, identity: Option<string>, loadedAt: int, claimedAt: int, reply: Reply): (World, Result) {
    if id !in w.sessions then (w, SessionNotFound)
    else
      var s := w.sessions[id];
      if s.IsTerminal() then (w, Already(s.status))
      else if s.IsExpired(loadedAt) then
        (w.(sessions := H.Updated(w.sessions, id, H.Expired, s.version)), SessionExpired)
      else if s.toolCallId == "" then
        (w.(sessions := H.Updated(w.sessions, id, H.ReconciliationRequired, s.version),
            grants := G.Marked(w.grants, id, {G.Pending}, G.ReconciliationRequired)),
         ReconciliationRequired)
      else if identity.None? then (w, ActorRequired)
      else SnapshotApproved(w, id, identity.value, s, claimedAt, reply)
  }

  /** Everything `reject` does when nothing interferes. */
  function Rejection(w: World, id: string, identity: Option<string>): (World, Result) {
    if id !in w.sessions then (w, SessionNotFound)
    else
      var s := w.sessions[id];
      if s.IsTerminal() then (w, Already(s.status))
      else if identity.None? then (w, ActorRequired)
      else if !H.CanUpdate(w.sessions, id, s.version) then (w, SessionUpdateFailed)
      else
        (w.(sessions := H.Updated(w.sessions, id, H.Rejected, s.version),
            grants := G.Marked(w.grants, id, {G.Pending, G.Approved}, G.Rejected)),
         RejectedByOperator)
  }

  class HITLApprovalExecutor {
    const hitl: H.SqliteHITLStore
    const grant: G.GrantRepository
    const idem: I.SqliteIdempotencyStore

    constructor (hitl: H.SqliteHITLStore, grant: G.GrantRepository, idem: I.SqliteIdempotencyStore)
      ensures this.hitl == hitl && this.grant == grant && this.idem == idem
    {
      this.hitl := hitl;
      this.grant := grant;
      this.idem := idem;
    }

    ghost function View(): World
      reads hitl, grant, idem
    {
      World(hitl.rows, grant.rows, idem.rows)
    }

    /** The part of `approve` that follows a successful claim. */
    method ExecuteClaimed(id: string, session: H.Session, claimed: G.Grant, reply: Reply)
      returns (result: Result, sent: seq<(string, Args)>)
      modifies hitl, grant, idem
      ensures (View(), result) == ClaimExecuted(old(View()), id, session, reply)
      ensures sent == if result == ResultAfter(reply) then [(claimed.toolName, claimed.canonicalToolArgs)] else []
      ensures id in old(grant.rows) ==> id in grant.rows && old(grant.rows)[id].SameRequest(grant.rows[id])
    {
      hide H.Updated, H.CanUpdate, G.Marked, KeyOf, AnswerOf, I.AfterReserve, I.AfterFailed, I.AfterSucceeded, I.AfterUnknown;
      sent := [];
      var key := KeyOf(id, session);
      var existing := idem.Get(key);
      if existing.Some? {
        if existing.value.status == I.Succeeded {
          return Cached(AnswerOf(existing.value)), sent;
        }
        if existing.value.status in {I.Reserved, I.Executing, I.Unknown} {
          grant.MarkFailed(id);
          var _ := hitl.UpdateStatus(id, H.Failed, session.version + 1);
          return ReplayDenied(existing.value.status), sent;
        }
      }
      var _ := idem.Reserve(key, session.toolName, session.toolArgs);
      sent := [(claimed.toolName, claimed.canonicalToolArgs)];
      match reply {
        case Raised =>
          var _ := idem.MarkUnknown(key);
          grant.MarkUnknown(id);
          var _ := hitl.UpdateStatus(id, H.Failed, session.version + 1);
          return OutcomeUnknown, sent;
        case Success(content) =>
          var _ := idem.MarkSucceeded(key, content);
          grant.MarkConsumed(id);
          var _ := hitl.UpdateStatus(id, H.Resumed, session.version + 1);
          return Executed(content), sent;
        case Failure(error) =>
          var _ := idem.MarkFailed(key, if error != "" then error else "unknown");
          grant.MarkFailed(id);
          var _ := hitl.UpdateStatus(id, H.Failed, session.version + 1);
          return ToolFailed(error), sent;
      }
    }

    /** One approval with nobody else in between.  `loadedAt` and `claimedAt` are the clock readings and
        `reply` is what the tool server answers if it is called. */
    method ApproveOne(id: string, identity: Option<string>, loadedAt: int, claimedAt: int, reply: Reply)
      returns (result: Result, sent: seq<(string, Args)>)
      modifies hitl, grant, idem
      ensures (View(), result) == Approval(old(View()), id, identity, loadedAt, claimedAt, reply)
      ensures |sent| == if result == ResultAfter(reply) then 1 else 0
      ensures |sent| == 1 ==> id in grant.rows && sent[0] == (grant.rows[id].toolName, grant.rows[id].canonicalToolArgs)
    {
      sent := [];
      var loaded := hitl.Get(id);
      if loaded.None? {
        return SessionNotFound, sent;
      }
      var session := loaded.value;
      if session.IsTerminal() {
        return Already(session.status), sent;
      }
      if session.IsExpired(loadedAt) {
        var _ := hitl.UpdateStatus(id, H.Expired, session.version);
        return SessionExpired, sent;
      }
      if session.toolCallId == "" {
        var _ := hitl.UpdateStatus(id, H.ReconciliationRequired, session.version);
        grant.MarkReconciliationRequired(id);
        return ReconciliationRequired, sent;
      }
      if identity.None? {
        return ActorRequired, sent;
      }
      var approved := grant.ApprovePending(id, identity.value, 1);
      if !approved {
        return GrantApprovalFailed, sent;
      }
      var updated := hitl.UpdateStatus(id, H.Approved, session.version);
      if !updated {
        return SessionUpdateFailed, sent;
      }
      var claimed := grant.AtomicConsume(id, ClaimOf(id, identity.value, session), claimedAt);
      if claimed.None? {
        return GrantAlreadyConsumed, sent;
      }
      result, sent := ExecuteClaimed(id, session, claimed.value, reply);
    }

    method RejectOne(id: string, identity: Option<string>, loadedAt: int)
      returns (result: Result)
      modifies hitl, grant, idem
      ensures (View(), result) == Rejection(old(View()), id, identity)
    {
      var loaded := hitl.Get(id);
      if loaded.None? {
        return SessionNotFound;
      }
      var session := loaded.value;
      if session.IsTerminal() {
        return Already(session.status);
      }
      if identity.None? {
        return ActorRequired;
      }
      var updated := hitl.UpdateStatus(id, H.Rejected, session.version);
      if !updated {
        return SessionUpdateFailed;
      }
      grant.MarkRejected(id);
      return RejectedByOperator;
    }
  }

  // ---------------------------------------------------------------- the program's parts, statement by statement

  lemma SoloDone(w: World, a: Actor, loadedAt: int, claimedAt: int, reply: Reply)
    requires a.pc.Done?
    ensures Solo(w, a, loadedAt, claimedAt, reply) == (w, a.pc.result)
  {
  }

  lemma RecordingIsSolo(w: World, a: Actor, s: H.Session, loadedAt: int, claimedAt: int, reply: Reply)
    requires a.pc == RecordKey(s, reply)
    ensures Solo(w, a, loadedAt, claimedAt, reply) == ReplyRecorded(w, a.sessionId, s, reply)
  {
    hide Solo, H.Updated, G.Marked, KeyRecorded, KeyOf;
    var w1 := w.(keys := KeysAfter(w.keys, a));
    var a1 := a.(pc := RecordGrant(s, reply));
    var w2 := w1.(grants := GrantsAfter(w1.grants, a1, claimedAt));
    var a2 := a.(pc := RecordSession(s, reply));
    SoloStep(w, a, loadedAt, claimedAt, reply);
    SoloStep(w1, a1, loadedAt, claimedAt, reply);
    SoloStep(w2, a2, loadedAt, claimedAt, reply);
    SoloDone(w2.(sessions := SessionsAfter(w2.sessions, a2)), a.(pc := Done(ResultAfter(reply))), loadedAt, claimedAt, reply);
  }

  lemma RefusingIsSolo(w: World, a: Actor, s: H.Session, status: I.Status, loadedAt: int, claimedAt: int, reply: Reply)
    requires a.pc == DenyGrant(s, status)
    ensures Solo(w, a, loadedAt, claimedAt, reply) == ReplayRefused(w, a.sessionId, s, status)
  {
    var w1 := w.(grants := GrantsAfter(w.grants, a, claimedAt));
    SoloStep(w, a, loadedAt, claimedAt, reply);
    SoloStep(w1, a.(pc := DenySession(s, status)), loadedAt, claimedAt, reply);
  }

  lemma SendingIsSolo(w: World, a: Actor, s: H.Session, g: G.Grant, loadedAt: int, claimedAt: int, reply: Reply)
    requires a.pc == ReserveKey(s, g)
    ensures Solo(w, a, loadedAt, claimedAt, reply)
            == ReplyRecorded(w.(keys := I.AfterReserve(w.keys, KeyOf(a.sessionId, s), s.toolName, s.toolArgs)), a.sessionId, s, reply)
  {
    hide Solo, ReplyRecorded;
    var w1 := w.(keys := KeysAfter(w.keys, a));
    SoloStep(w, a, loadedAt, claimedAt, reply);
    SoloStep(w1, a.(pc := Dispatch(s, g)), loadedAt, claimedAt, reply);
    RecordingIsSolo(w1, a.(pc := RecordKey(s, reply)), s, loadedAt, claimedAt, reply);
  }

  lemma ExecutingIsSolo(w: World, a: Actor, s: H.Session, g: G.Grant, loadedAt: int, claimedAt: int, reply: Reply)
    requires a.pc == CheckKey(s, g)
    ensures Solo(w, a, loadedAt, claimedAt, reply) == ClaimExecuted(w, a.sessionId, s, reply)
  {
    var key := KeyOf(a.sessionId, s);
    SoloStep(w, a, loadedAt, claimedAt, reply);
    if key !in w.keys || w.keys[key].status == I.Failed {
      SendingIsSolo(w, a.(pc := ReserveKey(s, g)), s, g, loadedAt, claimedAt, reply);
    } else if w.keys[key].status != I.Succeeded {
      RefusingIsSolo(w, a.(pc := DenyGrant(s, w.keys[key].status)), s, w.keys[key].status, loadedAt, claimedAt, reply);
    }
  }

  lemma ClaimingIsSolo(w: World, a: Actor, s: H.Session, loadedAt: int, claimedAt: int, reply: Reply)
    requires a.pc == ClaimGrant(s)
    ensures Solo(w, a, loadedAt, claimedAt, reply) == SessionClaimed(w, a.sessionId, IdentityOf(a), s, claimedAt, reply)
  {
    hide Solo, ClaimExecuted, ClaimOf, G.Matches;
    var w1 := w.(grants := GrantsAfter(w.grants, a, claimedAt));
    SoloStep(w, a, loadedAt, claimedAt, reply);
    if G.CanConsume(w.grants, a.sessionId, ClaimOf(a.sessionId, IdentityOf(a), s), claimedAt) {
      SoloStep(w1, a.(pc := ReadBack(s)), loadedAt, claimedAt, reply);
      ExecutingIsSolo(w1, a.(pc := CheckKey(s, w1.grants[a.sessionId])), s, w1.grants[a.sessionId], loadedAt, claimedAt, reply);
    } else {
      SoloDone(w1, a.(pc := Done(GrantAlreadyConsumed)), loadedAt, claimedAt, reply);
    }
  }

  lemma ApprovingIsSolo(w: World, a: Actor, s: H.Session, loadedAt: int, claimedAt: int, reply: Reply)
    requires a.pc == ApproveGrant(s)
    ensures Solo(w, a, loadedAt, claimedAt, reply) == SnapshotApproved(w, a.sessionId, IdentityOf(a), s, claimedAt, reply)
  {
    SoloStep(w, a, loadedAt, claimedAt, reply);
    if G.CanApprove(w.grants, a.sessionId, 1) {
      var w1 := w.(grants := GrantsAfter(w.grants, a, claimedAt));
      var a1 := a.(pc := ApproveSession(s));
      SoloStep(w1, a1, loadedAt, claimedAt, reply);
      if H.CanUpdate(w.sessions, a.sessionId, s.version) {
        ClaimingIsSolo(w1.(sessions := SessionsAfter(w.sessions, a1)), a.(pc := ClaimGrant(s)), s, loadedAt, claimedAt, reply);
      }
    }
  }

  // ---------------------------------------------------------------- what a lone actor sends

  /** The results that say what the tool did. */
  predicate CallsTool(r: Result) {
    r.Executed? || r.ToolFailed? || r.OutcomeUnknown?
  }

  /** A grant that the actor already carries is the one in the table, but for its status. */
  ghost predicate CarriesItsGrant(w: World, a: Actor) {
    a.pc.CheckKey? || a.pc.ReserveKey? || a.pc.Dispatch? ==>
      a.sessionId in w.grants && a.pc.g.SameRequest(w.grants[a.sessionId])
  }

  /** One call, built from the grant row of the session. */
  ghost predicate SendsTheGrant(sent: seq<Sent>, i: nat, id: string, grants: G.Table) {
    && |sent| == 1
    && id in grants
    && sent[0].sender == i && sent[0].sessionId == id
    && sent[0].grant.SameRequest(grants[id])
    && sent[0].toolName == grants[id].toolName
    && sent[0].arguments == grants[id].canonicalToolArgs
  }

  lemma StepCarries(w: World, a: Actor, now: int, reply: Reply)
    requires CarriesItsGrant(w, a)
    ensures CarriesItsGrant(Step(w, a, now, reply).0, a.(pc := NextPc(w, a, now, reply)))
  {
  }

  lemma StepTellsDispatch(w: World, a: Actor, now: int, reply: Reply)
    requires !a.pc.Done?
    ensures HasDispatched(a.(pc := NextPc(w, a, now, reply))) <==> HasDispatched(a) || a.pc.Dispatch?
  {
  }

  lemma StepKeepsRequest(w: World, a: Actor, now: int, reply: Reply)
    requires a.sessionId in w.grants
    ensures var after := Step(w, a, now, reply).0.grants;
            a.sessionId in after && w.grants[a.sessionId].SameRequest(after[a.sessionId])
  {
  }

  lemma {:induction false} SoloKeepsRequest(w: World, a: Actor, loadedAt: int, claimedAt: int, reply: Reply)
    requires a.sessionId in w.grants
    ensures var after := Solo(w, a, loadedAt, claimedAt, reply).0.grants;
            a.sessionId in after && w.grants[a.sessionId].SameRequest(after[a.sessionId])
    decreases Remaining(a.pc)
  {
    hide Step;
    if !a.pc.Done? {
      var now := if a.pc.LoadSession? then loadedAt else claimedAt;
      SoloStep(w, a, loadedAt, claimedAt, reply);
      StepKeepsRequest(w, a, now, reply);
      SoloKeepsRequest(Step(w, a, now, reply).0, a.(pc := NextPc(w, a, now, reply)), loadedAt, claimedAt, reply);
    }
  }

  /** A lone actor that has not yet dispatched sends exactly one call, its grant's, if its result is the
      tool's, and none otherwise; one that has dispatched sends nothing more. */
  lemma {:induction false} SoloSends(w: World, a: Actor, i: nat, loadedAt: int, claimedAt: int, reply: Reply)
    requires CarriesItsGrant(w, a)
    ensures var (w', r) := Solo(w, a, loadedAt, claimedAt, reply);
            var sent := SoloLog(w, a, i, loadedAt, claimedAt, reply);
            if !HasDispatched(a) && CallsTool(r) then SendsTheGrant(sent, i, a.sessionId, w'.grants) else sent == []
    decreases Remaining(a.pc)
  {
    hide Step, NextPc, Solo, SoloLog, HasDispatched;
    if a.pc.Done? {
      DoneSendsNothing(w, a, i, loadedAt, claimedAt, reply);
    } else {
      var now := if a.pc.LoadSession? then loadedAt else claimedAt;
      var w1, a1 := Step(w, a, now, reply).0, a.(pc := NextPc(w, a, now, reply));
      SoloStep(w, a, loadedAt, claimedAt, reply);
      SoloLogStep(w, a, i, loadedAt, claimedAt, reply);
      StepCarries(w, a, now, reply);
      StepTellsDispatch(w, a, now, reply);
      SoloSends(w1, a1, i, loadedAt, claimedAt, reply);
      if a.pc.Dispatch? {
        SendingSends(w, a, i, loadedAt, claimedAt, reply);
      }
    }
  }

  lemma DoneSendsNothing(w: World, a: Actor, i: nat, loadedAt: int, claimedAt: int, reply: Reply)
    requires a.pc.Done?
    ensures SoloLog(w, a, i, loadedAt, claimedAt, reply) == []
    ensures HasDispatched(a) <==> CallsTool(Solo(w, a, loadedAt, claimedAt, reply).1)
  {
  }

  lemma SendingSends(w: World, a: Actor, i: nat, loadedAt: int, claimedAt: int, reply: Reply)
    requires a.pc.Dispatch? && CarriesItsGrant(w, a)
    ensures !HasDispatched(a)
    ensures var (w', r) := Solo(w, a, loadedAt, claimedAt, reply);
            CallsTool(r) && SendsTheGrant(Handed(a, i), i, a.sessionId, w'.grants)
  {
    var a1 := a.(pc := RecordKey(a.pc.s, reply));
    SoloStep(w, a, loadedAt, claimedAt, reply);
    SoloKeepsRequest(w, a, loadedAt, claimedAt, reply);
    RecordingIsSolo(Step(w, a, claimedAt, reply).0, a1, a.pc.s, loadedAt, claimedAt, reply);
  }

  // ---------------------------------------------------------------- a call is a run of the machine

  /** The log of the run has grown by the one call of the session's grant, or not at all, as the result says. */
  ghost predicate Logged(c: Config, c': Config, i: nat, id: string, r: Result) {
    && c.log <= c'.log
    && var sent := c'.log[|c.log|..];
    if CallsTool(r) then SendsTheGrant(sent, i, id, c'.world.grants) else sent == []
  }

  /** An undisturbed `approve` is one of the machine's interleavings: run to its end from its start, the
      actor leaves the very world and result that the program computes, and sends what the program sends. */
  lemma ApprovalIsARun(c: Config, i: nat, loadedAt: int, claimedAt: int, reply: Reply)
    requires i < |c.actors| && c.actors[i].decision == Approve && c.actors[i].pc == LoadSession
    ensures var a := c.actors[i];
            var c' := Run(c, SoloActions(c, i, loadedAt, claimedAt, reply));
            var (w, r) := Approval(c.world, a.sessionId, a.identity, loadedAt, claimedAt, reply);
            && c'.world == w && c'.actors == c.actors[i := a.(pc := Done(r))]
            && Logged(c, c', i, a.sessionId, r)
  {
    hide Run, SoloActions, Solo, SoloLog, Approval;
    var a := c.actors[i];
    var c' := Run(c, SoloActions(c, i, loadedAt, claimedAt, reply));
    SoloIsARun(c, i, loadedAt, claimedAt, reply);
    SoloApproval(c.world, a, loadedAt, claimedAt, reply);
    SoloSends(c.world, a, i, loadedAt, claimedAt, reply);
    assert c'.log[|c.log|..] == SoloLog(c.world, a, i, loadedAt, claimedAt, reply);
  }

  /** The same from the moment an approver has read its session. */
  lemma SnapshotIsARun(c: Config, i: nat, loadedAt: int, claimedAt: int, reply: Reply)
    requires i < |c.actors| && c.actors[i].pc.ApproveGrant?
    ensures var a := c.actors[i];
            var c' := Run(c, SoloActions(c, i, loadedAt, claimedAt, reply));
            var (w, r) := SnapshotApproved(c.world, a.sessionId, IdentityOf(a), a.pc.s, claimedAt, reply);
            && c'.world == w && c'.actors == c.actors[i := a.(pc := Done(r))]
            && Logged(c, c', i, a.sessionId, r)
  {
    hide Run, SoloActions, Solo, SoloLog, SnapshotApproved;
    var a := c.actors[i];
    var c' := Run(c, SoloActions(c, i, loadedAt, claimedAt, reply));
    SoloIsARun(c, i, loadedAt, claimedAt, reply);
    ApprovingIsSolo(c.world, a, a.pc.s, loadedAt, claimedAt, reply);
    SoloSends(c.world, a, i, loadedAt, claimedAt, reply);
    assert c'.log[|c.log|..] == SoloLog(c.world, a, i, loadedAt, claimedAt, reply);
  }

  lemma SoloApproval(w: World, a: Actor, loadedAt: int, claimedAt: int, reply: Reply)
    requires a.decision == Approve && a.pc == LoadSession
    ensures Solo(w, a, loadedAt, claimedAt, reply) == Approval(w, a.sessionId, a.identity, loadedAt, claimedAt, reply)
  {
    var pc := NextPc(w, a, loadedAt, reply);
    var a1 := a.(pc := pc);
    SoloStep(w, a, loadedAt, claimedAt, reply);
    if pc.ApproveGrant? {
      ApprovingIsSolo(w, a1, pc.s, loadedAt, claimedAt, reply);
    } else if pc.WriteExpired? {
      SoloStep(w, a1, loadedAt, claimedAt, reply);
    } else if pc.WriteReconciliation? {
      SoloStep(w, a1, loadedAt, claimedAt, reply);
      SoloStep(w.(sessions := SessionsAfter(w.sessions, a1)), a.(pc := MarkReconciliation(pc.s)), loadedAt, claimedAt, reply);
    }
  }

  /** Likewise for `reject`. */
  lemma RejectionIsARun(c: Config, i: nat, now: int, reply: Reply)
    requires i < |c.actors| && c.actors[i].decision == Reject && c.actors[i].pc == LoadSession
    ensures var a := c.actors[i];
            var c' := Run(c, SoloActions(c, i, now, now, reply));
            var (w, r) := Rejection(c.world, a.sessionId, a.identity);
            c'.world == w && c'.actors == c.actors[i := a.(pc := Done(r))] && c'.log == c.log
  {
    hide Run, SoloActions, Solo, SoloLog;
    SoloIsARun(c, i, now, now, reply);
    SoloRejection(c.world, c.actors[i], now, reply);
    SoloSends(c.world, c.actors[i], i, now, now, reply);
  }

  lemma SoloRejection(w: World, a: Actor, now: int, reply: Reply)
    requires a.decision == Reject && a.pc == LoadSession
    ensures Solo(w, a, now, now, reply) == Rejection(w, a.sessionId, a.identity)
  {
    var pc := NextPc(w, a, now, reply);
    var a1 := a.(pc := pc);
    SoloStep(w, a, now, now, reply);
    if pc.RejectSession? {
      SoloStep(w, a1, now, now, reply);
      SoloStep(w.(sessions := SessionsAfter(w.sessions, a1)), a.(pc := RejectGrant(pc.s)), now, now, reply);
    }
  }

  // ---------------------------------------------------------------- what an undisturbed actor achieves

  /** A request as the endpoint stores it: a session at its first version and its matching PENDING grant,
      and a key nobody has used. */
  ghost predicate FreshRequest(w: World, id: string, s: H.Session) {
    && id in w.sessions && s.SameRequest(w.sessions[id])
    && s.version == 1 && w.sessions[id].version == 1
    && s.toolCallId != ""
    && id in w.grants && w.grants[id].status == G.Pending
    && G.Matches(w.grants[id].(approvingActorId := ""), ClaimOf(id, "", s))
    && KeyOf(id, s) !in w.keys
  }

  /** What a reply makes of the session, the grant, the record of an unused key and the result.  A first,
      successful call leaves its key RESERVED, because success is recorded from EXECUTING only. */
  ghost predicate Told(reply: Reply, session: H.Status, grant: G.Status, key: I.Status, r: Result) {
    match reply
    case Success(content) => session == H.Resumed && grant == G.Consumed && key == I.Reserved && r == Executed(content)
    case Failure(error) => session == H.Failed && grant == G.Failed && key == I.Failed && r == ToolFailed(error)
    case Raised => session == H.Failed && grant == G.Unknown && key == I.Unknown && r == OutcomeUnknown
  }

  /** From the snapshot of a fresh request, an approver left alone calls the tool and records its reply in
      both rows.  Only the version of the session row matters, so this includes a session that the sweep
      has meanwhile marked EXPIRED. */
  lemma FreshRequestIsExecuted(w: World, id: string, actor: string, s: H.Session, claimedAt: int, reply: Reply)
    requires FreshRequest(w, id, s) && G.Live(w.grants[id], claimedAt)
    ensures var (w', r) := SnapshotApproved(w, id, actor, s, claimedAt, reply);
            && id in w'.sessions && id in w'.grants && KeyOf(id, s) in w'.keys
            && Told(reply, w'.sessions[id].status, w'.grants[id].status, w'.keys[KeyOf(id, s)].status, r)
            && w'.sessions == w.sessions[id := w.sessions[id].(status := w'.sessions[id].status, version := 3)]
            && w'.grants == w.grants[id := w.grants[id].(status := w'.grants[id].status, approvingActorId := actor,
                                                         consumingAt := Some(claimedAt))]
            && w'.keys - {KeyOf(id, s)} == w.keys
  {
    var approved := w.grants[id].(status := G.Approved, approvingActorId := actor);
    var claimed := approved.(status := G.Consuming, consumingAt := Some(claimedAt));
    assert G.Matches(approved, ClaimOf(id, actor, s));
    var w1 := w.(sessions := w.sessions[id := w.sessions[id].(status := H.Approved, version := 2)], grants := w.grants[id := approved]);
    var w2 := w1.(grants := w1.grants[id := claimed]);
    assert SnapshotApproved(w, id, actor, s, claimedAt, reply) == SessionClaimed(w1, id, actor, s, claimedAt, reply);
    assert SessionClaimed(w1, id, actor, s, claimedAt, reply) == ClaimExecuted(w2, id, s, reply) by {
      hide ClaimExecuted;
    }
    ClaimedRequestIsExecuted(w2, id, s, reply);
    hide SnapshotApproved, SessionClaimed, ClaimExecuted, G.Matches, Told;
  }

  lemma ClaimedRequestIsExecuted(w: World, id: string, s: H.Session, reply: Reply)
    requires id in w.sessions && w.sessions[id].version == 2 && s.version == 1
    requires id in w.grants && w.grants[id].status == G.Consuming && KeyOf(id, s) !in w.keys
    ensures var (w', r) := ClaimExecuted(w, id, s, reply);
            && id in w'.sessions && id in w'.grants && KeyOf(id, s) in w'.keys
            && Told(reply, w'.sessions[id].status, w'.grants[id].status, w'.keys[KeyOf(id, s)].status, r)
            && w'.sessions == w.sessions[id := w.sessions[id].(status := w'.sessions[id].status, version := 3)]
            && w'.grants == w.grants[id := w.grants[id].(status := w'.grants[id].status)]
            && w'.keys - {KeyOf(id, s)} == w.keys
  {
  }

  /** A fresh request whose grant has expired at the claim is not executed. */
  lemma ExpiredGrantIsNotClaimed(w: World, id: string, actor: string, s: H.Session, claimedAt: int, reply: Reply)
    requires FreshRequest(w, id, s) && !G.Live(w.grants[id], claimedAt)
    ensures SnapshotApproved(w, id, actor, s, claimedAt, reply).1 == GrantAlreadyConsumed
  {
  }

  /** Two session tables that differ in nothing but statuses. */
  ghost predicate SameRows(t: H.Table, t': H.Table) {
    t'.Keys == t.Keys && forall id | id in t :: t'[id] == t[id].(status := t'[id].status)
  }

  ghost predicate SameButStatuses(w: World, w': World) {
    w'.grants == w.grants && w'.keys == w.keys && SameRows(w.sessions, w'.sessions)
  }

  lemma UpdatingSameRows(t: H.Table, t': H.Table, id: string, status: H.Status, expected: int)
    requires SameRows(t, t')
    ensures H.CanUpdate(t', id, expected) == H.CanUpdate(t, id, expected)
    ensures SameRows(H.Updated(t, id, status, expected), H.Updated(t', id, status, expected))
  {
  }

  lemma StatementsKeepSameRows(t: H.Table, t': H.Table, a: Actor)
    requires SameRows(t, t')
    ensures SameRows(SessionsAfter(t, a), SessionsAfter(t', a))
  {
    hide SameRows, H.Updated;
    forall status, expected
      ensures SameRows(H.Updated(t, a.sessionId, status, expected), H.Updated(t', a.sessionId, status, expected))
    {
      UpdatingSameRows(t, t', a.sessionId, status, expected);
    }
  }

  lemma StatusesSteerOnlyTheLoad(w: World, w': World, a: Actor, now: int, reply: Reply)
    requires SameButStatuses(w, w') && !a.pc.LoadSession?
    ensures NextPc(w', a, now, reply) == NextPc(w, a, now, reply)
  {
    if a.pc.ApproveSession? || a.pc.RejectSession? {
      UpdatingSameRows(w.sessions, w'.sessions, a.sessionId, H.Approved, a.pc.s.version);
    }
    hide SameRows, H.CanUpdate, G.CanApprove, G.CanConsume, KeyOf, ClaimOf, AfterCheck;
  }

  lemma StepsKeepSameButStatuses(w: World, w': World, a: Actor, now: int, reply: Reply)
    requires SameButStatuses(w, w')
    ensures SameButStatuses(Step(w, a, now, reply).0, Step(w', a, now, reply).0)
  {
    hide SessionsAfter, GrantsAfter, KeysAfter, NextPc;
    StatementsKeepSameRows(w.sessions, w'.sessions, a);
  }

  lemma SweepChangesStatusesOnly(t: H.Table, now: int)
    ensures SameRows(t, H.Swept(t, now))
  {
  }

  /** Behind its first read an actor never looks at a session's status again, only at its version. */
  lemma {:induction false} StatusesAreNotReadAgain(w: World, w': World, a: Actor, i: nat, loadedAt: int, claimedAt: int, reply: Reply)
    requires SameButStatuses(w, w') && !a.pc.LoadSession?
    ensures Solo(w', a, loadedAt, claimedAt, reply).1 == Solo(w, a, loadedAt, claimedAt, reply).1
    ensures SoloLog(w', a, i, loadedAt, claimedAt, reply) == SoloLog(w, a, i, loadedAt, claimedAt, reply)
    decreases Remaining(a.pc)
  {
    hide SameRows, Step, SameButStatuses;
    if !a.pc.Done? {
      var pc := NextPc(w, a, claimedAt, reply);
      SoloLogStep(w, a, i, loadedAt, claimedAt, reply);
      SoloLogStep(w', a, i, loadedAt, claimedAt, reply);
      SoloStep(w, a, loadedAt, claimedAt, reply);
      SoloStep(w', a, loadedAt, claimedAt, reply);
      StatusesSteerOnlyTheLoad(w, w', a, claimedAt, reply);
      StepsKeepSameButStatuses(w, w', a, claimedAt, reply);
      StatusesAreNotReadAgain(Step(w, a, claimedAt, reply).0, Step(w', a, claimedAt, reply).0, a.(pc := pc), i,
                              loadedAt, claimedAt, reply);
    }
  }

  lemma SweptLoadSendsNothing(w: World, a: Actor, i: nat, sweptAt: int, loadedAt: int, claimedAt: int, reply: Reply)
    requires a.decision == Approve && a.pc.LoadSession? && sweptAt <= loadedAt
    requires a.sessionId in w.sessions && w.sessions[a.sessionId].IsStale(sweptAt)
    ensures SoloLog(w, a, i, loadedAt, claimedAt, reply) == []
    ensures SoloLog(w.(sessions := H.Swept(w.sessions, sweptAt)), a, i, loadedAt, claimedAt, reply) == []
  {
    hide Solo, SoloLog;
    var swept := w.(sessions := H.Swept(w.sessions, sweptAt));
    SoloApproval(w, a, loadedAt, claimedAt, reply);
    SoloApproval(swept, a, loadedAt, claimedAt, reply);
    SoloSends(w, a, i, loadedAt, claimedAt, reply);
    SoloSends(swept, a, i, loadedAt, claimedAt, reply);
  }

  lemma SweepChangesNoSoloLog(w: World, a: Actor, i: nat, sweptAt: int, loadedAt: int, claimedAt: int, reply: Reply)
    requires a.decision == Approve && sweptAt <= loadedAt
    ensures var swept := w.(sessions := H.Swept(w.sessions, sweptAt));
            SoloLog(swept, a, i, loadedAt, claimedAt, reply) == SoloLog(w, a, i, loadedAt, claimedAt, reply)
  {
    hide Solo, SoloLog;
    var swept := w.(sessions := H.Swept(w.sessions, sweptAt));
    SweepChangesStatusesOnly(w.sessions, sweptAt);
    if a.pc.LoadSession? {
      if a.sessionId in w.sessions && w.sessions[a.sessionId].IsStale(sweptAt) {
        SweptLoadSendsNothing(w, a, i, sweptAt, loadedAt, claimedAt, reply);
      } else {
        var pc := NextPc(w, a, loadedAt, reply);
        SoloLogStep(w, a, i, loadedAt, claimedAt, reply);
        SoloLogStep(swept, a, i, loadedAt, claimedAt, reply);
        StatusesAreNotReadAgain(w, swept, a.(pc := pc), i, loadedAt, claimedAt, reply);
      }
    } else {
      StatusesAreNotReadAgain(w, swept, a, i, loadedAt, claimedAt, reply);
    }
  }

  /** The sweep never decides what an undisturbed approver sends, wherever in its program it stands: if it
      has yet to read the session, its own expiry check would have stopped it as well, and once it has
      read it, nothing does. */
  lemma SweepDecidesNoCall(c: Config, i: nat, sweptAt: int, loadedAt: int, claimedAt: int, reply: Reply)
    requires i < |c.actors| && c.actors[i].decision == Approve && sweptAt <= loadedAt
    ensures var swept := Apply(c, Sweep(sweptAt));
            Run(swept, SoloActions(swept, i, loadedAt, claimedAt, reply)).log == Run(c, SoloActions(c, i, loadedAt, claimedAt, reply)).log
  {
    hide Run, SoloActions, Solo, SoloLog;
    SoloIsARun(c, i, loadedAt, claimedAt, reply);
    SoloIsARun(Apply(c, Sweep(sweptAt)), i, loadedAt, claimedAt, reply);
    SweepChangesNoSoloLog(c.world, c.actors[i], i, sweptAt, loadedAt, claimedAt, reply);
  }

  /** An undisturbed approval of a fresh request sends a call exactly when the session is read before its
      deadline and the grant is claimed before its own.  The session's deadline counts at no other time. */
  lemma DeadlineCountsAtTheLoad(c: Config, i: nat, loadedAt: int, claimedAt: int, reply: Reply)
    requires i < |c.actors| && c.actors[i].decision == Approve && c.actors[i].pc.LoadSession? && c.actors[i].identity.Some?
    requires var id := c.actors[i].sessionId;
             id in c.world.sessions && c.world.sessions[id].status == H.Pending && FreshRequest(c.world, id, c.world.sessions[id])
    ensures var id := c.actors[i].sessionId;
            var c' := Run(c, SoloActions(c, i, loadedAt, claimedAt, reply));
            var (deadline, expiry) := (c.world.sessions[id].expiresAt, c.world.grants[id].expiresAt);
            |c'.log| == |c.log| + if (deadline.Some? ==> loadedAt <= deadline.value) && (expiry.Some? ==> claimedAt < expiry.value) then 1 else 0
  {
    hide Run, SoloActions, SnapshotApproved;
    var a := c.actors[i];
    var s := c.world.sessions[a.sessionId];
    ApprovalIsARun(c, i, loadedAt, claimedAt, reply);
    if G.Live(c.world.grants[a.sessionId], claimedAt) {
      FreshRequestIsExecuted(c.world, a.sessionId, a.identity.value, s, claimedAt, reply);
    } else {
      ExpiredGrantIsNotClaimed(c.world, a.sessionId, a.identity.value, s, claimedAt, reply);
    }
  }
}
