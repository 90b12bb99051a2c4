/** The durable table of human-approval sessions and its optimistic version lock. */
module HitlStore {
  import opened Values

  datatype Status =
    | Pending | Approved | Rejected | Expired | Resumed | Failed | ReconciliationRequired

  datatype Session = Session(
    userId: string,
    threadId: string,
    status: Status,
    toolName: string,
    toolArgs: Args,
    idempotencyKey: Option<string>,
    version: int,
    expiresAt: Option<int>,
    toolCallId: string)
  {
    /** RESUMED is missing here, so a finished session still accepts a reject. */
    predicate IsTerminal() {
      status in {Approved, Rejected, Expired, Failed, ReconciliationRequired}
    }

    predicate IsExpired(now: int) {
      expiresAt.Some? && now > expiresAt.value
    }

    /** What the sweep selects: only PENDING rows whose deadline has passed. */
    predicate IsStale(now: int) {
      status == Pending && IsExpired(now)
    }

    /** The columns no statement ever rewrites. */
    ghost predicate SameRequest(other: Session) {
      other == this.(status := other.status, version := other.version)
    }
  }

  type Table = map<string, Session>

  // ---------------------------------------------------------------- one atomic statement each

  /** PRIMARY KEY(session_id) and UNIQUE(idempotency_key), where SQL nulls never collide. */
  predicate CanInsert(t: Table, id: string, s: Session) {
    && id !in t
    && (s.idempotencyKey.Some? ==> forall other | other in t :: t[other].idempotencyKey != s.idempotencyKey)
  }

  predicate CanUpdate(t: Table, id: string, expected: int) {
    id in t && t[id].version == expected
  }

  function Updated(t: Table, id: string, status: Status, expected: int): Table {
    if CanUpdate(t, id, expected)
    then t[id := t[id].(status := status, version := expected + 1)]
    else t
  }

  /** The sweep leaves every version alone. */
  function Swept(t: Table, now: int): Table {
    map id | id in t :: if t[id].IsStale(now) then t[id].(status := Expired) else t[id]
  }

  class SqliteHITLStore {
    var rows: Table

    constructor ()
      ensures rows == map[]
    {
      rows := map[];
    }

    method Insert(id: string, s: Session) returns (ok: bool)
      modifies this
      ensures ok <==> id !in old(rows) && (s.idempotencyKey.Some? ==> forall x | x in old(rows) :: old(rows)[x].idempotencyKey != s.idempotencyKey)
      ensures ok == CanInsert(old(rows), id, s)
      ensures rows == if ok then old(rows)[id := s] else old(rows)
    {
      ok := CanInsert(rows, id, s);
      if ok {
        rows := rows[id := s];
      }
    }

    method Get(id: string) returns (s: Option<Session>)
      ensures s == if id in rows then Some(rows[id]) else None
    {
      if id in rows {
        s := Some(rows[id]);
      } else {
        s := None;
      }
    }

    method UpdateStatus(id: string, status: Status, expectedVersion: int) returns (ok: bool)
      modifies this
      ensures ok <==> id in old(rows) && old(rows)[id].version == expectedVersion
      ensures rows == if ok then old(rows)[id := old(rows)[id].(status := status, version := old(rows)[id].version + 1)] else old(rows)
      ensures ok == CanUpdate(old(rows), id, expectedVersion)
      ensures rows == Updated(old(rows), id, status, expectedVersion)
    {
      ok := id in rows && rows[id].version == expectedVersion;
      if ok {
        rows := rows[id := rows[id].(status := status, version := rows[id].version + 1)];
      }
    }

    method ExpireStaleSessions(now: int) returns (count: nat)
      modifies this
      ensures rows.Keys == old(rows).Keys
      ensures forall id | id in rows ::
                rows[id] == if old(rows)[id].status == Pending && old(rows)[id].expiresAt.Some? && old(rows)[id].expiresAt.value < now
                            then old(rows)[id].(status := Expired) else old(rows)[id]
      ensures rows == Swept(old(rows), now)
      ensures count == |set id | id in old(rows) && old(rows)[id].IsStale(now)|
    {
      var stale := set id | id in rows && rows[id].IsStale(now);
      rows := map id | id in rows :: if id in stale then rows[id].(status := Expired) else rows[id];
      count := |stale|;
    }
  }
}
