/**
 The idempotency records and the four statements that touch them. The functions
 say what each statement does to the table; the class issues them in place.
 */
module IdempotencyTable {
  import opened Results

  datatype Key = Key(user: string, server: string, tool: string, idempotencyKey: string)

  datatype Row = InProgress | Succeeded(result: string)

  type Table = map<Key, Row>

  /** What a request learns from the row it found after its insert was refused. */
  datatype Verdict = Replay(result: string) | Busy

  function Insert(table: Table, key: Key): Table {
    if key in table then table else table[key := InProgress]
  }

  function Read(table: Table, key: Key): Verdict {
    if key in table && table[key].Succeeded? then Replay(table[key].result) else Busy
  }

  function Complete(table: Table, key: Key, result: string): Table {
    if key in table then table[key := Succeeded(result)] else table
  }

  function Abandon(table: Table, key: Key): Table {
    if key in table && table[key].InProgress? then table - {key} else table
  }

  class RecordStore {
    var rows: Table

    constructor ()
      ensures rows == map[]
    {
      rows := map[];
    }

    /** INSERT .. ON CONFLICT DO NOTHING RETURNING status. */
    method TryInsert(key: Key) returns (inserted: bool)
      modifies this
      ensures inserted <==> key !in old(rows)
      ensures rows == Insert(old(rows), key)
    {
      if key in rows {
        return false;
      }
      rows := rows[key := InProgress];
      return true;
    }

    method Lookup(key: Key) returns (verdict: Verdict)
      ensures verdict == Read(rows, key)
    {
      var row: Option<Row> := None;
      if key in rows {
        row := Some(rows[key]);
      }
      if row.Some? && row.value.Succeeded? {
        return Replay(row.value.result);
      }
      return Busy;
    }

    /** UPDATE .. SET status = 'succeeded', with no guard on the old status. */
    method MarkSucceeded(key: Key, result: string)
      modifies this
      ensures rows == Complete(old(rows), key, result)
    {
      if key in rows {
        rows := rows[key := Succeeded(result)];
      }
    }

    /** DELETE .. WHERE status = 'in_progress'. */
    method Release(key: Key)
      modifies this
      ensures rows == Abandon(old(rows), key)
    {
      if key in rows && rows[key] == InProgress {
        rows := map k | k in rows && k != key :: rows[k];
      }
    }
  }

  /**
   The records as a lock: an insert takes a free key and only a free key, and
   abandoning what was just taken restores the table.
   */
  lemma InsertThenAbandon(table: Table, key: Key)
    ensures key !in table ==> Abandon(Insert(table, key), key) == table
    ensures key in table ==> Insert(table, key) == table
  {
    if key !in table {
      assert Insert(table, key) - {key} == table;
    }
  }
}
