/** Durable idempotency records: one status machine per key. */
module IdempotencyStore {
  import opened Values

  datatype Status = Reserved | Executing | Succeeded | Failed | Unknown

  datatype Record = Record(
    status: Status,
    toolName: string,
    toolArgs: Args,
    result: Option<string>,
    error: Option<string>)

  type Table = map<string, Record>

  function StatusOf(t: Table, key: string): Option<Status> {
    if key in t then Some(t[key].status) else None
  }

  // ---------------------------------------------------------------- one atomic statement each

  /** INSERT OR IGNORE. */
  function AfterReserve(t: Table, key: string, toolName: string, toolArgs: Args): Table {
    if key in t then t else t[key := Record(Reserved, toolName, toolArgs, None, None)]
  }

  function AfterExecuting(t: Table, key: string): Table {
    if key in t && t[key].status == Reserved then t[key := t[key].(status := Executing)] else t
  }

  /** Fires from EXECUTING only: a record that is still RESERVED stays RESERVED. */
  function AfterSucceeded(t: Table, key: string, result: string): Table {
    if key in t && t[key].status == Executing
    then t[key := t[key].(status := Succeeded, result := Some(result))]
    else t
  }

  /** No status guard at all. */
  function AfterFailed(t: Table, key: string, error: string): Table {
    if key in t then t[key := t[key].(status := Failed, error := Some(error))] else t
  }

  function AfterUnknown(t: Table, key: string): Table {
    if key in t && t[key].status in {Reserved, Executing}
    then t[key := t[key].(status := Unknown)]
    else t
  }

  class SqliteIdempotencyStore {
    var rows: Table

    constructor ()
      ensures rows == map[]
    {
      rows := map[];
    }

    method Get(key: string) returns (r: Option<Record>)
      ensures r == if key in rows then Some(rows[key]) else None
    {
      if key in rows {
        r := Some(rows[key]);
      } else {
        r := None;
      }
    }

    method Reserve(key: string, toolName: string, toolArgs: Args) returns (r: Record)
      modifies this
      ensures rows == if key in old(rows) then old(rows) else old(rows)[key := Record(Reserved, toolName, toolArgs, None, None)]
      ensures rows == AfterReserve(old(rows), key, toolName, toolArgs)
      ensures key in rows && r == rows[key]
    {
      if key !in rows {
        rows := rows[key := Record(Reserved, toolName, toolArgs, None, None)];
      }
      r := rows[key];
    }

    method MarkExecuting(key: string) returns (ok: bool)
      modifies this
      ensures ok <==> key in old(rows) && old(rows)[key].status == Reserved
      ensures rows == if ok then old(rows)[key := old(rows)[key].(status := Executing)] else old(rows)
      ensures rows == AfterExecuting(old(rows), key)
    {
      ok := key in rows && rows[key].status == Reserved;
      if ok {
        rows := rows[key := rows[key].(status := Executing)];
      }
    }

    method MarkSucceeded(key: string, result: string) returns (ok: bool)
      modifies this
      ensures ok <==> key in old(rows) && old(rows)[key].status == Executing
      ensures rows == if ok then old(rows)[key := old(rows)[key].(status := Succeeded, result := Some(result))] else old(rows)
      ensures rows == AfterSucceeded(old(rows), key, result)
    {
      ok := key in rows && rows[key].status == Executing;
      if ok {
        rows := rows[key := rows[key].(status := Succeeded, result := Some(result))];
      }
    }

    method MarkFailed(key: string, error: string) returns (ok: bool)
      modifies this
      ensures ok <==> key in old(rows)
      ensures rows == if ok then old(rows)[key := old(rows)[key].(status := Failed, error := Some(error))] else old(rows)
      ensures rows == AfterFailed(old(rows), key, error)
    {
      ok := key in rows;
      if ok {
        rows := rows[key := rows[key].(status := Failed, error := Some(error))];
      }
    }

    method MarkUnknown(key: string) returns (ok: bool)
      modifies this
      ensures ok <==> key in old(rows) && old(rows)[key].status in {Reserved, Executing}
      ensures rows == if ok then old(rows)[key := old(rows)[key].(status := Unknown)] else old(rows)
      ensures rows == AfterUnknown(old(rows), key)
    {
      ok := key in rows && rows[key].status in {Reserved, Executing};
      if ok {
        rows := rows[key := rows[key].(status := Unknown)];
      }
    }
  }
}
