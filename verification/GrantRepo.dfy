/** Approved-operation grants: one row per session, moved by guarded updates. */
module GrantRepo {
  import opened Values

  datatype Status =
    | Pending | Approved | Consuming | Consumed | Failed | Unknown
    | Rejected | Expired | ReconciliationRequired

  datatype Grant = Grant(
    requestingUserId: string,
    approvingActorId: string,
    threadId: string,
    runId: Option<string>,
    checkpointId: Option<string>,
    toolCallId: string,
    toolName: string,
    canonicalToolArgs: Args,
    argumentDigest: Digest,
    idempotencyKey: string,
    status: Status,
    expiresAt: Option<int>,
    consumingAt: Option<int>,
    version: int)
  {
    /** Everything but the actor, the claim time and the status is written once, at insertion. */
    ghost predicate SameRequest(other: Grant) {
      other == this.(status := other.status, approvingActorId := other.approvingActorId,
                     consumingAt := other.consumingAt)
    }

    /** The insertion stores the digest of the very arguments it stores. */
    ghost predicate Linked() {
      argumentDigest == Sha256(canonicalToolArgs)
    }
  }

  type Table = map<string, Grant>

  /** The parameters of a claim. */
  datatype Claim = Claim(
    userId: string,
    approvingActorId: string,
    threadId: string,
    runId: string,
    checkpointId: string,
    toolCallId: string,
    toolName: string,
    toolArgs: Args,
    idempotencyKey: string,
    version: int)

  // ---------------------------------------------------------------- one atomic statement each

  /** PRIMARY KEY(session_id) and UNIQUE(idempotency_key); the empty key counts as a value. */
  predicate CanInsert(t: Table, id: string, g: Grant) {
    id !in t && forall other | other in t :: t[other].idempotencyKey != g.idempotencyKey
  }

  /** The statement writes status PENDING and version 1 whatever the record says. */
  function Inserted(t: Table, id: string, g: Grant): Table {
    if CanInsert(t, id, g)
    then t[id := g.(status := Pending, version := 1, consumingAt := None)]
    else t
  }

  predicate CanApprove(t: Table, id: string, expected: int) {
    id in t && t[id].status == Pending && t[id].version == expected
  }

  function ApprovedBy(t: Table, id: string, actor: string, expected: int): Table {
    if CanApprove(t, id, expected)
    then t[id := t[id].(status := Approved, approvingActorId := actor)]
    else t
  }

  predicate Matches(g: Grant, c: Claim) {
    && g.version == c.version
    && g.requestingUserId == c.userId
    && g.threadId == c.threadId
    && (g.approvingActorId == c.approvingActorId || g.approvingActorId == "" || c.approvingActorId == "")
    && (g.runId == Some(c.runId) || g.runId == None || c.runId == "")
    && (g.checkpointId == Some(c.checkpointId) || g.checkpointId == None || c.checkpointId == "")
    && g.toolCallId == c.toolCallId
    && g.toolName == c.toolName
    && g.argumentDigest == Sha256(c.toolArgs)
    && g.idempotencyKey == c.idempotencyKey
  }

  predicate Live(g: Grant, now: int) {
    g.expiresAt.Some? ==> g.expiresAt.value > now
  }

  predicate CanConsume(t: Table, id: string, c: Claim, now: int) {
    id in t && t[id].status == Approved && Matches(t[id], c) && Live(t[id], now)
  }

  function Claimed(t: Table, id: string, c: Claim, now: int): Table {
    if CanConsume(t, id, c, now)
    then t[id := t[id].(status := Consuming, consumingAt := Some(now))]
    else t
  }

  /** The five `mark_*` statements share one shape: a status guard and a new status. */
  function Marked(t: Table, id: string, guard: set<Status>, status: Status): Table {
    if id in t && t[id].status in guard then t[id := t[id].(status := status)] else t
  }

  class GrantRepository {
    var rows: Table

    constructor ()
      ensures rows == map[]
    {
      rows := map[];
    }

    method InsertPending(id: string, g: Grant) returns (ok: bool)
      modifies this
      ensures ok <==> id !in old(rows) && forall x | x in old(rows) :: old(rows)[x].idempotencyKey != g.idempotencyKey
      ensures rows == if ok then old(rows)[id := g.(status := Pending, version := 1, consumingAt := None)] else old(rows)
      ensures ok == CanInsert(old(rows), id, g)
      ensures rows == Inserted(old(rows), id, g)
    {
      ok := CanInsert(rows, id, g);
      if ok {
        rows := rows[id := g.(status := Pending, version := 1, consumingAt := None)];
      }
    }

    method ApprovePending(id: string, actor: string, expectedVersion: int) returns (ok: bool)
      modifies this
      ensures ok <==> id in old(rows) && old(rows)[id].status == Pending && old(rows)[id].version == expectedVersion
      ensures rows == if ok then old(rows)[id := old(rows)[id].(status := Approved, approvingActorId := actor)] else old(rows)
      ensures ok == CanApprove(old(rows), id, expectedVersion)
      ensures rows == ApprovedBy(old(rows), id, actor, expectedVersion)
    {
      ok := id in rows && rows[id].status == Pending && rows[id].version == expectedVersion;
      if ok {
        rows := rows[id := rows[id].(status := Approved, approvingActorId := actor)];
      }
    }

    /** The conditional update followed by the read-back of the CONSUMING row. */
    method AtomicConsume(id: string, c: Claim, now: int) returns (grant: Option<Grant>)
      modifies this
      ensures grant.Some? <==>
                && id in old(rows)
                && var g := old(rows)[id];
                && g.status == Approved && g.version == c.version
                && g.requestingUserId == c.userId && g.threadId == c.threadId
                && (g.approvingActorId == c.approvingActorId || g.approvingActorId == "" || c.approvingActorId == "")
                && (g.runId == Some(c.runId) || g.runId == None || c.runId == "")
                && (g.checkpointId == Some(c.checkpointId) || g.checkpointId == None || c.checkpointId == "")
                && g.toolCallId == c.toolCallId && g.toolName == c.toolName
                && g.argumentDigest == Sha256(c.toolArgs) && g.idempotencyKey == c.idempotencyKey
                && (g.expiresAt == None || g.expiresAt.value > now)
      ensures rows == if grant.Some? then old(rows)[id := old(rows)[id].(status := Consuming, consumingAt := Some(now))] else old(rows)
      ensures rows == Claimed(old(rows), id, c, now)
      ensures grant.Some? <==> CanConsume(old(rows), id, c, now)
      ensures grant.Some? ==> id in rows && grant.value == rows[id] && grant.value.status == Consuming
    {
      if !(id in rows && rows[id].status == Approved && Matches(rows[id], c) && Live(rows[id], now)) {
        return None;
      }
      rows := rows[id := rows[id].(status := Consuming, consumingAt := Some(now))];
      if id in rows && rows[id].status == Consuming {
        return Some(rows[id]);
      }
      return None;
    }

    method Mark(id: string, guard: set<Status>, status: Status)
      modifies this
      ensures rows == Marked(old(rows), id, guard, status)
    {
      if id in rows && rows[id].status in guard {
        rows := rows[id := rows[id].(status := status)];
      }
    }

    method MarkConsumed(id: string)
      modifies this
      ensures rows == if id in old(rows) && old(rows)[id].status in {Consuming} then old(rows)[id := old(rows)[id].(status := Consumed)] else old(rows)
      ensures rows == Marked(old(rows), id, {Consuming}, Consumed)
    {
      Mark(id, {Consuming}, Consumed);
    }

    method MarkFailed(id: string)
      modifies this
      ensures rows == if id in old(rows) && old(rows)[id].status in {Consuming} then old(rows)[id := old(rows)[id].(status := Failed)] else old(rows)
      ensures rows == Marked(old(rows), id, {Consuming}, Failed)
    {
      Mark(id, {Consuming}, Failed);
    }

    method MarkUnknown(id: string)
      modifies this
      ensures rows == if id in old(rows) && old(rows)[id].status in {Consuming} then old(rows)[id := old(rows)[id].(status := Unknown)] else old(rows)
      ensures rows == Marked(old(rows), id, {Consuming}, Unknown)
    {
      Mark(id, {Consuming}, Unknown);
    }

    method MarkRejected(id: string)
      modifies this
      ensures rows == if id in old(rows) && old(rows)[id].status in {Pending, Approved} then old(rows)[id := old(rows)[id].(status := Rejected)] else old(rows)
      ensures rows == Marked(old(rows), id, {Pending, Approved}, Rejected)
    {
      Mark(id, {Pending, Approved}, Rejected);
    }

    method MarkReconciliationRequired(id: string)
      modifies this
      ensures rows == if id in old(rows) && old(rows)[id].status in {Pending} then old(rows)[id := old(rows)[id].(status := ReconciliationRequired)] else old(rows)
      ensures rows == Marked(old(rows), id, {Pending}, ReconciliationRequired)
    {
      Mark(id, {Pending}, ReconciliationRequired);
    }
  }

  // ---------------------------------------------------------------- the fixed rank

  function Rank(s: Status): nat {
    match s
    case Pending => 0
    case Approved => 1
    case Consuming => 2
    case _ => 3
  }

  /** Progress of one row: the request is kept, and the status stays or climbs.  REJECTED and
      RECONCILIATION_REQUIRED are entered only from statuses that precede a claim. */
  ghost predicate Climbs(before: Grant, after: Grant) {
    && before.SameRequest(after)
    && (before.status != after.status ==> Rank(before.status) < Rank(after.status))
    && (after.status == Rejected ==> before.status in {Pending, Approved, Rejected})
    && (after.status == ReconciliationRequired ==> before.status in {Pending, ReconciliationRequired})
    && (before.status in {Approved, Consuming} && Rank(after.status) == 3 && after.status != Rejected
        ==> after.status in {Consumed, Failed, Unknown})
    && (before.status != Pending ==> before.approvingActorId == after.approvingActorId)
    && (Rank(before.status) >= 2 ==> before.consumingAt == after.consumingAt)
  }

  ghost predicate TableClimbs(before: Table, after: Table) {
    forall id | id in before :: id in after && Climbs(before[id], after[id])
  }

  ghost predicate KeysUnique(t: Table) {
    forall x, y | x in t && y in t && t[x].idempotencyKey == t[y].idempotencyKey :: x == y
  }
}
