/** database.go: `DBService`, one user's conversation log. The SQLite table
    is the field `rows`; driver failures are inputs (`fault` parameters) that
    stand for the error the driver would return. */
module MessageLog {
  import opened Wrappers
  import opened Strings
  import opened History

  /** A stored turn as `GetMessages` hands it out. */
  datatype Message = Message(userName: string, role: string, content: string, time: int)

  function AsMessage(r: Row): Message {
    Message(r.userName, r.role, r.content, r.time)
  }

  /** The rows converted one by one, in order. */
  function ToMessages(rows: seq<Row>): (ms: seq<Message>)
    ensures |ms| == |rows|
    ensures forall i :: 0 <= i < |rows| ==> ms[i] == AsMessage(rows[i])
  {
    if rows == [] then [] else ToMessages(rows[..|rows| - 1]) + [AsMessage(rows[|rows| - 1])]
  }

  /** What `GetMessages(u)` returns on a log holding `rows`. */
  function Messages(rows: seq<Row>, u: string): seq<Message>
  {
    ToMessages(Query(rows, u))
  }

  /** A message added with a timestamp no earlier than every stored one is
      listed last for its user, and other users' listings do not change. */
  lemma {:induction false} MessagesAfterAdd(rows: seq<Row>, x: Row, v: string)
    requires forall y :: y in rows ==> y.time <= x.time
    ensures Messages(rows + [x], v) == if v == x.userId then Messages(rows, v) + [AsMessage(x)] else Messages(rows, v)
  {
    RowsOfAppend(rows, x, v);
    if v == x.userId {
      SortAppendLatest(RowsOf(rows, v), x);
      var q := Query(rows, v);
      assert (q + [x])[..|q|] == q;
    }
  }

  /** The text by which `createTables` recognises the migration error it
      ignores. */
  const DuplicateColumn: string := "duplicate column name"

  /** The error `createTables` returns, given the errors of its CREATE and its
      ALTER statement: the CREATE error first; an ALTER error only when it is
      not about a duplicate column. */
  function MigrationError(createErr: Option<string>, alterErr: Option<string>): (err: Option<string>)
    ensures err.None? <==> createErr.None? && (alterErr.None? || Contains(alterErr.value, DuplicateColumn))
    ensures err.Some? ==> err == createErr || err == alterErr
    ensures createErr.Some? ==> err == createErr
  {
    if createErr.Some? then createErr
    else if alterErr.Some? && !Contains(alterErr.value, DuplicateColumn) then alterErr
    else None
  }

  /** Prefixes with which `TrimHistory` wraps the driver's errors. */
  const TrimTimestampError: string := "could not get trim timestamp: "
  const DeleteError: string := "could not delete old messages: "

  class DBService {
    /** The data source the handle was opened on. */
    const path: string
    /** The `messages` table, in insertion order. */
    var rows: seq<Row>
    var open: bool

    constructor (path: string, stored: seq<Row>)
      ensures this.path == path && rows == stored && open
    {
      this.path := path;
      rows := stored;
      open := true;
    }

    /** `INSERT` of one row stamped with `now`; nothing is written when the
        driver fails. */
    method AddMessage(userId: string, userName: string, role: string, content: string,
                      now: int, fault: Option<string>) returns (err: Option<string>)
      modifies this
      ensures err == fault && open == old(open)
      ensures fault.Some? ==> rows == old(rows)
      ensures fault.None? ==> rows == old(rows) + [Row(userId, userName, role, content, now)]
    {
      err := fault;
      if fault.None? {
        rows := rows + [Row(userId, userName, role, content, now)];
      }
    }

    /** The user's messages, oldest first; the driver's error when the query
        fails. */
    method GetMessages(userId: string, fault: Option<string>) returns (r: Result<seq<Message>, string>)
      ensures fault.Some? ==> r == Failure(fault.value)
      ensures fault.None? ==> r.Success? && r.value == Messages(rows, userId)
    {
      if fault.Some? {
        return Failure(fault.value);
      }
      var selected := Query(rows, userId);
      var messages: seq<Message> := [];
      var i := 0;
      while i < |selected|
        invariant 0 <= i <= |selected|
        invariant messages == ToMessages(selected[..i])
      {
        assert selected[..i + 1][..i] == selected[..i];
        messages := messages + [AsMessage(selected[i])];
        i := i + 1;
      }
      assert selected[..i] == selected;
      r := Success(messages);
    }

    /** Keeps the user's `keepCount` newest rows (and every row tied with the
        oldest of them), deleting the user's strictly older rows. No row is
        deleted when the user has fewer rows or when either statement fails. */
    method TrimHistory(userId: string, keepCount: int, queryFault: Option<string>,
                       deleteFault: Option<string>) returns (err: Option<string>)
      modifies this
      ensures open == old(open)
      ensures queryFault.Some? ==> err == Some(TrimTimestampError + queryFault.value) && rows == old(rows)
      ensures queryFault.None? && Threshold(old(rows), userId, keepCount).None? ==>
        err.None? && rows == old(rows)
      ensures queryFault.None? && Threshold(old(rows), userId, keepCount).Some? ==>
        var t := Threshold(old(rows), userId, keepCount).value;
        if deleteFault.Some? then err == Some(DeleteError + deleteFault.value) && rows == old(rows)
        else err.None? && rows == Trimmed(old(rows), userId, t)
    {
      if queryFault.Some? {
        return Some(TrimTimestampError + queryFault.value);
      }
      var threshold := Threshold(rows, userId, keepCount);
      if threshold.None? {
        return None;
      }
      if deleteFault.Some? {
        return Some(DeleteError + deleteFault.value);
      }
      rows := Trimmed(rows, userId, threshold.value);
      err := None;
    }

    method Close()
      modifies this
      ensures !open && rows == old(rows)
    {
      open := false;
    }
  }

  /** `NewDB`: opens the data source (`connectErr` stands for a failure of
      `sql.Open` or `Ping`), then runs the migration. `stored` is what the
      file already holds. */
  method NewDB(path: string, stored: seq<Row>, connectErr: Option<string>,
               createErr: Option<string>, alterErr: Option<string>)
    returns (r: Result<DBService, string>)
    ensures connectErr.Some? ==> r == Failure(connectErr.value)
    ensures connectErr.None? && MigrationError(createErr, alterErr).Some? ==>
      r == Failure(MigrationError(createErr, alterErr).value)
    ensures r.Failure? <==> connectErr.Some? || MigrationError(createErr, alterErr).Some?
    ensures r.Success? ==>
      fresh(r.value) && r.value.path == path && r.value.rows == stored && r.value.open
  {
    if connectErr.Some? {
      return Failure(connectErr.value);
    }
    var migration := MigrationError(createErr, alterErr);
    if migration.Some? {
      return Failure(migration.value);
    }
    var db := new DBService(path, stored);
    r := Success(db);
  }
}
