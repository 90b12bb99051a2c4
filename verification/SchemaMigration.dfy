/** The version-guarded chain of schema migrations, with the rows of the two tables it rewrites. */
module SchemaMigration {
  import opened Values

  /** `toolCallId` is missing until the column exists. */
  datatype SessionRow = SessionRow(sessionId: string, request: string, toolCallId: Option<string>)

  datatype GrantRow = GrantRow(sessionId: string, idempotencyKey: string, decision: string, status: string, request: string)

  /** Which constraints a grant table declares. */
  datatype Constraints = Unconstrained | V3Checks | V5Checks

  datatype GrantTable = GrantTable(rows: seq<GrantRow>, checks: Constraints)

  /** The grant table and the two names under which its replacements are built. */
  datatype GrantsName = Grants | GrantsV3 | GrantsV5

  datatype Tables = Tables(
    sessions: Option<seq<SessionRow>>,
    hasCallId: bool,
    grants: map<GrantsName, GrantTable>,
    hasWrites: bool)

  datatype Error =
    | FutureVersion | DuplicateSessions | DuplicateKeys | ConstraintFailed | MissingTable | TableExists | DuplicateColumn

  /** The tables as they stand when a step ends or fails. */
  datatype Result = Result(tables: Tables, error: Option<Error>)

  const NO_TABLES := Tables(None, false, map[], false)
  const CURRENT_SCHEMA_VERSION: int := 6
  const DECISIONS: set<string> := {"PENDING", "approved", "rejected"}
  const V3_STATUSES: set<string> :=
    {"PENDING", "APPROVED", "CONSUMING", "CONSUMED", "REJECTED", "EXPIRED", "FAILED", "UNKNOWN"}

  // ---------------------------------------------------------------- constraints on rows

  predicate DistinctSessions(rows: seq<GrantRow>) {
    forall i, j | 0 <= i < j < |rows| :: rows[i].sessionId != rows[j].sessionId
  }

  /** The explicit duplicate check skips empty keys, the UNIQUE constraint does not. */
  predicate DistinctKeys(rows: seq<GrantRow>, skipEmpty: bool) {
    forall i, j | 0 <= i < j < |rows| ::
      rows[i].idempotencyKey == rows[j].idempotencyKey ==> skipEmpty && rows[i].idempotencyKey == ""
  }

  predicate StatusAllowed(status: string, checks: Constraints) {
    match checks
    case Unconstrained => true
    case V3Checks => status in V3_STATUSES
    case V5Checks => status in V3_STATUSES || status == "RECONCILIATION_REQUIRED"
  }

  predicate Satisfies(rows: seq<GrantRow>, checks: Constraints) {
    checks.Unconstrained?
    || (DistinctSessions(rows) && DistinctKeys(rows, false)
        && forall i | 0 <= i < |rows| :: rows[i].decision in DECISIONS && StatusAllowed(rows[i].status, checks))
  }

  // ---------------------------------------------------------------- the statements of a rebuild

  function Created(t: Tables, name: GrantsName, checks: Constraints): Result {
    if name in t.grants then Result(t, Some(TableExists))
    else Result(t.(grants := t.grants[name := GrantTable([], checks)]), None)
  }

  /** What the constraints of a table say about one more row. */
  predicate RowFits(table: GrantTable, row: GrantRow) {
    table.checks.Unconstrained?
    || ((forall i | 0 <= i < |table.rows| ::
           table.rows[i].sessionId != row.sessionId && table.rows[i].idempotencyKey != row.idempotencyKey)
        && row.decision in DECISIONS && StatusAllowed(row.status, table.checks))
  }

  /** Row after row, or nothing at all if one does not fit. */
  function Filled(table: GrantTable, rows: seq<GrantRow>): Option<GrantTable>
    decreases |rows|
  {
    if rows == [] then Some(table)
    else if !RowFits(table, rows[0]) then None
    else Filled(table.(rows := table.rows + [rows[0]]), rows[1..])
  }

  function Copied(t: Tables, source: GrantsName, target: GrantsName): Result {
    if source !in t.grants || target !in t.grants then Result(t, Some(MissingTable))
    else match Filled(t.grants[target], t.grants[source].rows)
      case None => Result(t, Some(ConstraintFailed))
      case Some(table) => Result(t.(grants := t.grants[target := table]), None)
  }

  function Dropped(t: Tables, name: GrantsName): Tables {
    t.(grants := t.grants - {name})
  }

  function Renamed(t: Tables, name: GrantsName, newName: GrantsName): Tables
    requires name in t.grants && newName !in t.grants
  {
    t.(grants := (t.grants - {name})[newName := t.grants[name]])
  }

  // ---------------------------------------------------------------- the six steps

  /** Creates a replacement, copies the grants into it and puts it in their place.  The creation is
      committed at once, so a copy that fails leaves the replacement behind, empty. */
  function Rebuilt(t: Tables, name: GrantsName, checks: Constraints): Result
    requires name != Grants
  {
    var created := Created(t, name, checks);
    if created.error.Some? then created
    else
      var copied := Copied(created.tables, Grants, name);
      if copied.error.Some? then copied
      else Result(Renamed(Dropped(copied.tables, Grants), name, Grants), None)
  }

  function WithCallId(rows: seq<SessionRow>): seq<SessionRow> {
    seq(|rows|, i requires 0 <= i < |rows| => rows[i].(toolCallId := Some("")))
  }

  function MigrateV3(t: Tables): Result {
    if Grants !in t.grants then Result(t, Some(MissingTable))
    else if !DistinctSessions(t.grants[Grants].rows) then Result(t, Some(DuplicateSessions))
    else if !DistinctKeys(t.grants[Grants].rows, true) then Result(t, Some(DuplicateKeys))
    else Rebuilt(t, GrantsV3, V3Checks)
  }

  function MigrateV4(t: Tables): Result {
    if t.sessions.None? then Result(t, Some(MissingTable))
    else if t.hasCallId then Result(t, Some(DuplicateColumn))
    else Result(t.(sessions := Some(WithCallId(t.sessions.value)), hasCallId := true), None)
  }

  function Step(t: Tables, version: int): Result {
    match version
    case 1 => Result(if t.sessions.None? then t.(sessions := Some([])) else t, None)
    case 2 => Result(if Grants !in t.grants then t.(grants := t.grants[Grants := GrantTable([], Unconstrained)]) else t, None)
    case 3 => MigrateV3(t)
    case 4 => MigrateV4(t)
    case 5 => Rebuilt(t, GrantsV5, V5Checks)
    case 6 => Result(t.(hasWrites := true), None)
    case _ => Result(t, None)
  }

  /** The steps above `from` up to `target`, until one fails. */
  function Steps(t: Tables, from: int, target: int): Result
    decreases target - from
  {
    if from >= target then Result(t, None)
    else
      var r := Step(t, from + 1);
      if r.error.Some? then r else Steps(r.tables, from + 1, target)
  }

  datatype Database = Database(version: int, tables: Tables)

  function Initialised(db: Database, target: int): (Database, Option<Error>) {
    if db.version > target then (db, Some(FutureVersion))
    else
      var r := Steps(db.tables, db.version, target);
      (Database(if r.error.None? then target else db.version, r.tables), r.error)
  }

  class Store {
    var version: int
    var tables: Tables

    constructor ()
      ensures View() == Database(0, NO_TABLES)
    {
      version := 0;
      tables := NO_TABLES;
    }

    ghost function View(): Database
      reads this
    {
      Database(version, tables)
    }

    /** The CREATE, INSERT ... SELECT, DROP and RENAME of a rebuild, one after the other. */
    method Rebuild(name: GrantsName, checks: Constraints) returns (error: Option<Error>)
      requires name != Grants
      modifies this`tables
      ensures Result(tables, error) == Rebuilt(old(tables), name, checks)
    {
      var created := Created(tables, name, checks);
      tables := created.tables;
      if created.error.Some? {
        return created.error;
      }
      var copied := Copied(tables, Grants, name);
      tables := copied.tables;
      if copied.error.Some? {
        return copied.error;
      }
      tables := Dropped(tables, Grants);
      tables := Renamed(tables, name, Grants);
      return None;
    }

    /** CREATE TABLE IF NOT EXISTS. */
    method MigrateV1() returns (error: Option<Error>)
      modifies this`tables
      ensures Result(tables, error) == Step(old(tables), 1)
    {
      if tables.sessions.None? {
        tables := tables.(sessions := Some([]));
      }
      return None;
    }

    method MigrateV2() returns (error: Option<Error>)
      modifies this`tables
      ensures Result(tables, error) == Step(old(tables), 2)
    {
      if Grants !in tables.grants {
        tables := tables.(grants := tables.grants[Grants := GrantTable([], Unconstrained)]);
      }
      return None;
    }

    /** Both duplicate checks come before the rebuild. */
    method MigrateV3() returns (error: Option<Error>)
      modifies this`tables
      ensures Result(tables, error) == Step(old(tables), 3)
    {
      if Grants !in tables.grants {
        return Some(MissingTable);
      }
      var rows := tables.grants[Grants].rows;
      if !DistinctSessions(rows) {
        return Some(DuplicateSessions);
      }
      if !DistinctKeys(rows, true) {
        return Some(DuplicateKeys);
      }
      error := Rebuild(GrantsV3, V3Checks);
    }

    /** ALTER TABLE ... ADD COLUMN with an empty default. */
    method MigrateV4() returns (error: Option<Error>)
      modifies this`tables
      ensures Result(tables, error) == Step(old(tables), 4)
    {
      if tables.sessions.None? {
        return Some(MissingTable);
      }
      if tables.hasCallId {
        return Some(DuplicateColumn);
      }
      tables := tables.(sessions := Some(WithCallId(tables.sessions.value)), hasCallId := true);
      return None;
    }

    method MigrateV5() returns (error: Option<Error>)
      modifies this`tables
      ensures Result(tables, error) == Step(old(tables), 5)
    {
      error := Rebuild(GrantsV5, V5Checks);
    }

    method MigrateV6() returns (error: Option<Error>)
      modifies this`tables
      ensures Result(tables, error) == Step(old(tables), 6)
    {
      tables := tables.(hasWrites := true);
      return None;
    }

    /** Every step that succeeds is committed; the version is written only after the last one. */
    method InitDatabase(target: int) returns (error: Option<Error>)
      requires 0 <= version
      modifies this
      ensures (View(), error) == Initialised(old(View()), target)
    {
      hide Step;
      var current := version;
      if current > target {
        return Some(FutureVersion);
      }
      ghost var next := current;
      ghost var goal := Steps(tables, current, target);
      if current < 1 && target >= 1 {
        error := MigrateV1();
        if error.Some? {
          assert goal == Result(tables, error);
          return;
        }
        next := 1;
      }
      assert goal == Steps(tables, next, target);
      if current < 2 && target >= 2 {
        error := MigrateV2();
        if error.Some? {
          assert goal == Result(tables, error);
          return;
        }
        next := 2;
      }
      assert goal == Steps(tables, next, target);
      if current < 3 && target >= 3 {
        error := MigrateV3();
        if error.Some? {
          assert goal == Result(tables, error);
          return;
        }
        next := 3;
      }
      assert goal == Steps(tables, next, target);
      if current < 4 && target >= 4 {
        error := MigrateV4();
        if error.Some? {
          assert goal == Result(tables, error);
          return;
        }
        next := 4;
      }
      assert goal == Steps(tables, next, target);
      if current < 5 && target >= 5 {
        error := MigrateV5();
        if error.Some? {
          assert goal == Result(tables, error);
          return;
        }
        next := 5;
      }
      assert goal == Steps(tables, next, target);
      if current < 6 && target >= 6 {
        error := MigrateV6();
        if error.Some? {
          assert goal == Result(tables, error);
          return;
        }
        next := 6;
      }
      assert goal == Steps(tables, next, target);
      NothingAboveCurrent(tables, next, target);
      if current < target {
        version := target;
      }
      error := None;
    }
  }

  lemma {:induction false} NothingAboveCurrent(t: Tables, from: int, target: int)
    requires from >= CURRENT_SCHEMA_VERSION || from >= target
    ensures Steps(t, from, target) == Result(t, None)
    decreases target - from
  {
    if from < target {
      NothingAboveCurrent(t, from + 1, target);
    }
  }

  // ---------------------------------------------------------------- composition

  lemma {:induction false} StepsCompose(t: Tables, from: int, middle: int, target: int)
    requires from <= middle <= target
    ensures var first := Steps(t, from, middle);
            Steps(t, from, target) == if first.error.Some? then first else Steps(first.tables, middle, target)
    decreases middle - from
  {
    hide Step;
    if from < middle {
      var r := Step(t, from + 1);
      if r.error.None? {
        StepsCompose(r.tables, from + 1, middle, target);
      }
    }
  }

  /** Migrating to an intermediate version first and then on gives what migrating directly gives: the same
      tables, the same error if there is one and the same version if there is none. */
  lemma MigrationComposes(db: Database, middle: int, target: int)
    requires db.version <= middle <= target
    ensures var (first, e) := Initialised(db, middle);
            var (direct, error) := Initialised(db, target);
            if e.Some? then (direct, error) == (first, e)
            else
              var (second, e') := Initialised(first, target);
              second.tables == direct.tables && e' == error && (error.None? ==> second == direct)
  {
    StepsCompose(db.tables, db.version, middle, target);
  }

  // ---------------------------------------------------------------- what a copy does

  lemma OneMoreRow(rows: seq<GrantRow>, row: GrantRow, checks: Constraints)
    ensures Satisfies(rows + [row], checks) <==> Satisfies(rows, checks) && RowFits(GrantTable(rows, checks), row)
  {
    var more := rows + [row];
    if Satisfies(more, checks) {
      assert forall i | 0 <= i < |rows| :: rows[i] == more[i];
      assert more[|rows|] == row;
    }
  }

  lemma PrefixSatisfies(rows: seq<GrantRow>, more: seq<GrantRow>, checks: Constraints)
    requires Satisfies(rows + more, checks)
    ensures Satisfies(rows, checks)
  {
    assert forall i | 0 <= i < |rows| :: (rows + more)[i] == rows[i];
  }

  /** The row-by-row copy goes through exactly when all the rows together satisfy the constraints, and then
      it has all of them in their order. */
  lemma {:induction false} FillingIsExact(table: GrantTable, rows: seq<GrantRow>)
    requires Satisfies(table.rows, table.checks)
    ensures Filled(table, rows) == if Satisfies(table.rows + rows, table.checks) then Some(table.(rows := table.rows + rows)) else None
    decreases |rows|
  {
    hide Satisfies, RowFits;
    if rows == [] {
      assert table.rows + rows == table.rows;
    } else {
      var next := table.rows + [rows[0]];
      assert table.rows + rows == next + rows[1..];
      OneMoreRow(table.rows, rows[0], table.checks);
      if RowFits(table, rows[0]) {
        FillingIsExact(table.(rows := next), rows[1..]);
      } else if Satisfies(table.rows + rows, table.checks) {
        PrefixSatisfies(next, rows[1..], table.checks);
      }
    }
  }

  /** A rebuild moves the very rows under the new constraints if they satisfy them; otherwise it leaves them
      and adds the empty replacement. */
  lemma RebuildIsExact(t: Tables, name: GrantsName, checks: Constraints)
    requires name != Grants && Grants in t.grants
    ensures var r := Rebuilt(t, name, checks);
            var rows := t.grants[Grants].rows;
            && r.tables == t.(grants := r.tables.grants)
            && if name in t.grants then r == Result(t, Some(TableExists))
               else if Satisfies(rows, checks) then r.error.None? && r.tables.grants == t.grants[Grants := GrantTable(rows, checks)]
               else r.error == Some(ConstraintFailed) && r.tables.grants == t.grants[name := GrantTable([], checks)]
  {
    hide Satisfies, Filled;
    var rows := t.grants[Grants].rows;
    var empty := GrantTable([], checks);
    EmptySatisfies(checks);
    FillingIsExact(empty, rows);
    assert [] + rows == rows;
    if name !in t.grants && Satisfies(rows, checks) {
      var table := GrantTable(rows, checks);
      var full := t.grants[name := empty][name := table];
      SwapIsExact(t.grants, name, empty, table);
      assert Copied(Created(t, name, checks).tables, Grants, name) == Result(t.(grants := full), None);
      hide Created, Copied;
      assert Rebuilt(t, name, checks).tables.grants == ((full - {Grants}) - {name})[Grants := table];
    }
  }

  /** Renaming the replacement after the drop leaves one table under the old name. */
  lemma SwapIsExact(grants: map<GrantsName, GrantTable>, name: GrantsName, empty: GrantTable, table: GrantTable)
    requires name !in grants && name != Grants
    ensures ((grants[name := empty][name := table] - {Grants}) - {name})[Grants := table] == grants[Grants := table]
  {
  }

  lemma EmptySatisfies(checks: Constraints)
    ensures Satisfies([], checks)
  {
  }

  // ---------------------------------------------------------------- rows are kept

  /** The row of a session is kept; a tool-call id may have been added to it. */
  ghost predicate SessionKept(before: SessionRow, after: SessionRow, added: bool) {
    && after.sessionId == before.sessionId && after.request == before.request
    && after.toolCallId == if added then Some("") else before.toolCallId
  }

  /** The same grants in the same order, and the same sessions in the same order, with an empty tool-call
      id each exactly if that column has been added. */
  ghost predicate RowsKept(before: Tables, after: Tables) {
    && (Grants in before.grants ==> Grants in after.grants && after.grants[Grants].rows == before.grants[Grants].rows)
    && (before.hasCallId ==> after.hasCallId)
    && (before.sessions.Some? ==>
          && after.sessions.Some?
          && |after.sessions.value| == |before.sessions.value|
          && forall i | 0 <= i < |before.sessions.value| ::
               SessionKept(before.sessions.value[i], after.sessions.value[i], after.hasCallId && !before.hasCallId))
  }

  lemma NothingToCopy(t: Tables, name: GrantsName, checks: Constraints)
    requires name != Grants && Grants !in t.grants
    ensures var r := Rebuilt(t, name, checks);
            r.error.Some? && r.tables == t.(grants := r.tables.grants)
  {
  }

  lemma RebuildKeepsRows(t: Tables, name: GrantsName, checks: Constraints)
    requires name != Grants
    ensures RowsKept(t, Rebuilt(t, name, checks).tables)
  {
    hide Rebuilt, Satisfies;
    if Grants in t.grants {
      RebuildIsExact(t, name, checks);
    } else {
      NothingToCopy(t, name, checks);
    }
  }

  lemma StepKeepsRows(t: Tables, version: int)
    ensures RowsKept(t, Step(t, version).tables)
  {
    hide Rebuilt, DistinctSessions, DistinctKeys;
    RebuildKeepsRows(t, GrantsV3, V3Checks);
    RebuildKeepsRows(t, GrantsV5, V5Checks);
  }

  lemma RowsKeptChain(a: Tables, b: Tables, c: Tables)
    requires RowsKept(a, b) && RowsKept(b, c)
    ensures RowsKept(a, c)
  {
    if a.sessions.Some? {
      forall i | 0 <= i < |a.sessions.value|
        ensures SessionKept(a.sessions.value[i], c.sessions.value[i], c.hasCallId && !a.hasCallId)
      {
        assert SessionKept(a.sessions.value[i], b.sessions.value[i], b.hasCallId && !a.hasCallId);
        assert SessionKept(b.sessions.value[i], c.sessions.value[i], c.hasCallId && !b.hasCallId);
      }
    }
  }

  /** No migration loses or rewrites a row, whether it succeeds or fails. */
  lemma {:induction false} MigrationKeepsRows(t: Tables, from: int, target: int)
    ensures RowsKept(t, Steps(t, from, target).tables)
    decreases target - from
  {
    hide Step;
    if from < target {
      var r := Step(t, from + 1);
      StepKeepsRows(t, from + 1);
      if r.error.None? {
        MigrationKeepsRows(r.tables, from + 1, target);
        RowsKeptChain(t, r.tables, Steps(r.tables, from + 1, target).tables);
      }
    }
  }

  // ---------------------------------------------------------------- when a migration can fail

  function ChecksAt(version: int): Constraints {
    if version < 3 then Unconstrained else if version < 5 then V3Checks else V5Checks
  }

  /** The tables a database of this version has, with the constraints SQLite has enforced on them.  Below
      v3 there may be the replacement that an earlier, failed v3 has left behind. */
  ghost predicate WellFormed(version: int, t: Tables) {
    && 0 <= version
    && (t.sessions.Some? || version < 1)
    && (t.hasCallId <==> version >= 4)
    && (Grants in t.grants || version < 2)
    && (Grants in t.grants ==> t.grants[Grants].checks == ChecksAt(version)
                               && Satisfies(t.grants[Grants].rows, ChecksAt(version)))
    && (GrantsV3 in t.grants ==> version < 3)
    && GrantsV5 !in t.grants
    && (version >= 6 ==> t.hasWrites)
  }

  /** Which rows the constraints of v3 and v5 admit: each status of the approval protocol, v5 one more than
      v3; three decisions; and no session or key twice, not even an empty key. */
  lemma ConstraintsAreExact(rows: seq<GrantRow>, checks: Constraints)
    requires checks != Unconstrained
    ensures Satisfies(rows, checks) <==>
              && (forall i, j | 0 <= i < j < |rows| ::
                    rows[i].sessionId != rows[j].sessionId && rows[i].idempotencyKey != rows[j].idempotencyKey)
              && (forall i | 0 <= i < |rows| ::
                    && (rows[i].decision == "PENDING" || rows[i].decision == "approved" || rows[i].decision == "rejected")
                    && (rows[i].status in {"PENDING", "APPROVED", "CONSUMING", "CONSUMED", "REJECTED", "EXPIRED", "FAILED", "UNKNOWN"}
                        || (checks == V5Checks && rows[i].status == "RECONCILIATION_REQUIRED")))
  {
  }

  /** v3 first looks for a session id and then for a non-empty key that two rows share. */
  lemma DuplicatesAreExact(rows: seq<GrantRow>)
    ensures !DistinctSessions(rows) <==> exists i, j :: 0 <= i < j < |rows| && rows[i].sessionId == rows[j].sessionId
    ensures !DistinctKeys(rows, true) <==>
              exists i, j :: 0 <= i < j < |rows| && rows[i].idempotencyKey == rows[j].idempotencyKey && |rows[i].idempotencyKey| > 0
  {
    if !DistinctKeys(rows, true) {
      var i, j :| 0 <= i < j < |rows| && rows[i].idempotencyKey == rows[j].idempotencyKey != "";
      assert |rows[i].idempotencyKey| > 0;
    }
  }

  /** What v3 demands of the grants stored before it. */
  ghost predicate Acceptable(t: Tables) {
    Grants in t.grants ==> Satisfies(t.grants[Grants].rows, V3Checks)
  }

  /** The grants get as far as the copy. */
  ghost predicate PassesChecks(t: Tables) {
    Grants in t.grants ==> DistinctSessions(t.grants[Grants].rows) && DistinctKeys(t.grants[Grants].rows, true)
  }

  lemma V5AcceptsWhatV3Accepts(rows: seq<GrantRow>)
    requires Satisfies(rows, V3Checks)
    ensures Satisfies(rows, V5Checks)
  {
  }

  lemma AcceptablePassesChecks(t: Tables)
    requires Acceptable(t)
    ensures PassesChecks(t)
  {
  }

  lemma V3IsExact(t: Tables)
    requires WellFormed(2, t)
    ensures var r := Step(t, 3);
            && (r.error.None? <==> Acceptable(t) && GrantsV3 !in t.grants)
            && (r.error.None? ==> WellFormed(3, r.tables))
            && (r.error.Some? ==> FailsInV3(t, r))
  {
    hide Rebuilt, DistinctSessions, DistinctKeys, Satisfies;
    RebuildIsExact(t, GrantsV3, V3Checks);
    if Acceptable(t) {
      AcceptablePassesChecks(t);
    }
  }

  /** How v3 fails: at the duplicate checks, which leave everything as it was; at the CREATE, because an
      earlier failure has left the replacement behind; or at the copy, which leaves it behind. */
  ghost predicate FailsInV3(t: Tables, r: Result)
    requires r.error.Some?
  {
    && r.tables.sessions.Some? && !r.tables.hasCallId && Grants in r.tables.grants
    && r.tables.grants[Grants] == (if Grants in t.grants then t.grants[Grants] else GrantTable([], Unconstrained))
    && GrantsV5 !in r.tables.grants
    && (match r.error.value
        case DuplicateSessions => Grants in t.grants && !DistinctSessions(t.grants[Grants].rows)
        case DuplicateKeys =>
          Grants in t.grants && DistinctSessions(t.grants[Grants].rows) && !DistinctKeys(t.grants[Grants].rows, true)
        case TableExists => PassesChecks(t) && GrantsV3 in t.grants
        case ConstraintFailed => PassesChecks(t) && !Acceptable(t) && GrantsV3 !in t.grants
        case _ => false)
    && (GrantsV3 in r.tables.grants <==> GrantsV3 in t.grants || r.error.value == ConstraintFailed)
  }

  lemma OtherStepsSucceed(t: Tables, version: int)
    requires 1 <= version != 3 && WellFormed(version - 1, t)
    ensures var r := Step(t, version);
            && r.error.None? && WellFormed(version, r.tables)
            && (version < 3 ==>
                  && (GrantsV3 in r.tables.grants <==> GrantsV3 in t.grants)
                  && (Acceptable(r.tables) <==> Acceptable(t)) && (PassesChecks(r.tables) <==> PassesChecks(t))
                  && (Grants in t.grants ==> r.tables.grants == t.grants)
                  && (Grants !in t.grants && Grants in r.tables.grants ==> r.tables.grants[Grants] == GrantTable([], Unconstrained)))
  {
    hide Rebuilt;
    if version == 5 {
      V5AcceptsWhatV3Accepts(t.grants[Grants].rows);
      RebuildIsExact(t, GrantsV5, V5Checks);
    }
  }

  /** Starting from a well-formed database, the only step that can fail is v3, and it fails exactly when
      the stored grants repeat a session id or an idempotency key or carry a value outside its checks, or
      when an earlier failure has left its replacement table behind; so the v5 rebuild never rejects what
      v3 accepted.  A success leaves a well-formed database. */
  lemma {:induction false} FailureIsExact(t: Tables, from: int, target: int)
    requires WellFormed(from, t) && from <= target
    ensures var r := Steps(t, from, target);
            && (r.error.Some? <==> from < 3 <= target && !(Acceptable(t) && GrantsV3 !in t.grants))
            && (r.error.None? ==> WellFormed(target, r.tables))
            && (r.error.Some? ==> FailsInV3(t, r))
    decreases target - from
  {
    hide Step, WellFormed, Acceptable, PassesChecks, FailsInV3;
    if from < target {
      VersionIsNatural(t, from);
      var r := Step(t, from + 1);
      if from == 2 {
        V3IsExact(t);
        if r.error.None? {
          FailureIsExact(r.tables, from + 1, target);
        }
      } else {
        OtherStepsSucceed(t, from + 1);
        FailureIsExact(r.tables, from + 1, target);
        if from < 3 && Steps(r.tables, from + 1, target).error.Some? {
          FailsTheSame(t, r.tables, from + 1, Steps(r.tables, from + 1, target));
        }
      }
    }
  }

  lemma FailsTheSame(t: Tables, u: Tables, version: int, r: Result)
    requires WellFormed(version - 1, t) && 1 <= version < 3 && u == Step(t, version).tables
    requires r.error.Some? && FailsInV3(u, r)
    ensures FailsInV3(t, r)
  {
    OtherStepsSucceed(t, version);
    hide Acceptable, PassesChecks, WellFormed;
  }

  lemma VersionIsNatural(t: Tables, version: int)
    requires WellFormed(version, t)
    ensures 0 <= version
  {
  }

  /** A database at version 3 or later has unique session ids and idempotency keys, however it got there;
      and no target below the stored version is accepted. */
  lemma MigratedDatabase(db: Database, target: int)
    requires WellFormed(db.version, db.tables)
    ensures var (after, e) := Initialised(db, target);
            && (target < db.version ==> after == db && e == Some(FutureVersion))
            && (e.Some? ==> after.version == db.version)
            && (e.None? ==> after.version == target && WellFormed(target, after.tables))
            && (e.None? && target >= 3 ==>
                  && after.version == target
                  && Grants in after.tables.grants
                  && DistinctSessions(after.tables.grants[Grants].rows) && DistinctKeys(after.tables.grants[Grants].rows, false))
  {
    if db.version <= target {
      FailureIsExact(db.tables, db.version, target);
    }
  }

  // ---------------------------------------------------------------- trying again after a repair

  /** Someone puts other rows into the grant table. */
  function Repaired(db: Database, rows: seq<GrantRow>): Database
    requires Grants in db.tables.grants
  {
    var table := db.tables.grants[Grants];
    db.(tables := db.tables.(grants := db.tables.grants[Grants := table.(rows := rows)]))
  }

  lemma AnyRowsFitBelowV3(rows: seq<GrantRow>)
    ensures Satisfies(rows, Unconstrained)
  {
  }

  /** When a migration has failed for the first time, it fails at the duplicate checks or at the copy.  With
      the rows repaired, so that v3 accepts them, the same migration then succeeds if and only if it had
      failed at the duplicate checks.  After a failed copy no repair of the rows helps, because the
      replacement table is in the way. */
  lemma RetryWorksIffFailedBeforeCreate(db: Database, target: int, rows: seq<GrantRow>)
    requires WellFormed(db.version, db.tables) && db.version <= target && GrantsV3 !in db.tables.grants
    requires Initialised(db, target).1.Some? && Satisfies(rows, V3Checks)
    ensures var (failed, e) := Initialised(db, target);
            && Grants in failed.tables.grants
            && var again := Initialised(Repaired(failed, rows), target).1;
            && e.value in {DuplicateSessions, DuplicateKeys, ConstraintFailed}
            && (e.value == ConstraintFailed <==> PassesChecks(db.tables))
            && (again.None? <==> e.value in {DuplicateSessions, DuplicateKeys})
            && (again.Some? ==> again == Some(TableExists))
  {
    hide Steps, DistinctSessions, DistinctKeys, Satisfies;
    FailureIsExact(db.tables, db.version, target);
    var failed := Initialised(db, target).0;
    var retried := Repaired(failed, rows);
    AcceptablePassesChecks(retried.tables);
    AnyRowsFitBelowV3(rows);
    FailureIsExact(retried.tables, retried.version, target);
  }
}
