/**
  The ingestor of index.js: it reads the staged punches and, record by
  record, resolves the device user id to the user's SSN and writes the pair
  (SSN, CHECKTIME) into the attendance log unless that pair is already there.

  The store is held in memory: `tbl_user` as a map from user id to SSN and
  `tbl_checkinout` as the sequence of its rows. CHECKTIME is the instant the
  record's `record_time` parses to; `toISOString` is one-to-one on instants,
  so two CHECKTIME strings are equal exactly when the instants are.
 */
module Ingestor {
  import opened Punches

  /** A row of `tbl_checkinout` (its surrogate id is not modelled). */
  datatype Row = Row(ssn: string, checkTime: int)

  /** `tbl_user`, seen through the one query the core makes of it. */
  type Users = map<int, string>

  /** UNIQUE(SSN) on `tbl_user`. */
  predicate UniqueSsns(users: Users)
  {
    forall a, b :: a in users && b in users && a != b ==> users[a] != users[b]
  }

  /** FOREIGN KEY (SSN) REFERENCES tbl_user(SSN). */
  predicate RowsReferToUsers(rows: seq<Row>, users: Users)
  {
    forall i :: 0 <= i < |rows| ==> rows[i].ssn in users.Values
  }

  /** A record passes validation when neither `user_id` nor `record_time` is
      falsy in JavaScript: absent, null, the number 0 or the empty string. */
  predicate Truthy(p: Punch)
  {
    p.userId.Present? && p.userId.value != 0 && p.recordTime.Present? && p.recordTime.value != ""
  }

  /** The store's answer to `SELECT SSN FROM tbl_user WHERE id = ?`. */
  function SsnOf(users: Users, id: int): (ssn: Option<string>)
    ensures ssn.Some? <==> id in users
    ensures ssn.Some? ==> ssn.value == users[id] && ssn.value in users.Values
  {
    if id in users then Some(users[id]) else None
  }

  /** What processing one record does to the log: nothing, abandon the rest
      of the batch (the record's date is invalid, so `toISOString` throws
      outside `insertAttendanceLog`), or offer a row to `insertAttendanceLog`. */
  datatype Action = Skip | Abort | Offer(row: Row)

  function ActionFor(users: Users, parse: DateParser, p: Punch): (act: Action)
    ensures !Truthy(p) ==> act == Skip
    ensures Truthy(p) && p.userId.value !in users ==> act == Skip
    ensures act.Offer? <==> Truthy(p) && p.userId.value in users && parse(p.recordTime.value).Some?
    ensures act.Abort? <==> Truthy(p) && p.userId.value in users && parse(p.recordTime.value).None?
    ensures act.Offer? ==> act.row == Row(users[p.userId.value], parse(p.recordTime.value).value)
    ensures act.Offer? ==> act.row.ssn in users.Values
  {
    if !Truthy(p) then Skip
    else match SsnOf(users, p.userId.value)
      case None => Skip
      case Some(ssn) =>
        match parse(p.recordTime.value)
        case None => Abort
        case Some(t) => Offer(Row(ssn, t))
  }

  /** The effect of `insertAttendanceLog`: a duplicate is skipped, a row
      that the foreign key rejects raises an error that the function logs,
      and any other row is appended. */
  function Insert(users: Users, rows: seq<Row>, row: Row): (after: seq<Row>)
    ensures row in after <==> row in rows || row.ssn in users.Values
    ensures row in rows ==> after == rows
    ensures after == rows || after == rows + [row]
    ensures NoDuplicates(rows) ==> NoDuplicates(after)
    ensures RowsReferToUsers(rows, users) ==> RowsReferToUsers(after, users)
  {
    if row in rows then rows
    else if row.ssn !in users.Values then rows
    else rows + [row]
  }

  /** The log after processing `batch` in order, starting from `rows`.
      Rows are only ever added, at most one per record: the old log is a
      prefix of the new one. */
  function Ingest(users: Users, parse: DateParser, rows: seq<Row>, batch: seq<Punch>): (after: seq<Row>)
    ensures rows <= after
    ensures |after| <= |rows| + |batch|
    decreases |batch|
  {
    if batch == [] then rows
    else match ActionFor(users, parse, batch[0])
      case Skip => Ingest(users, parse, rows, batch[1..])
      case Abort => rows
      case Offer(row) => Ingest(users, parse, Insert(users, rows, row), batch[1..])
  }

  /** One record of the batch, as the loop of `fetchLogsFromFile` sees it. */
  lemma IngestStep(users: Users, parse: DateParser, rows: seq<Row>, batch: seq<Punch>, i: nat)
    requires i < |batch|
    ensures Ingest(users, parse, rows, batch[i..]) ==
              match ActionFor(users, parse, batch[i])
              case Skip => Ingest(users, parse, rows, batch[i + 1..])
              case Abort => rows
              case Offer(row) => Ingest(users, parse, Insert(users, rows, row), batch[i + 1..])
  {
    assert batch[i..][0] == batch[i] && batch[i..][1..] == batch[i + 1..];
  }

  /** Whether the batch is processed to its end (no record aborts it). */
  predicate Completes(users: Users, parse: DateParser, batch: seq<Punch>)
  {
    forall i :: 0 <= i < |batch| ==> !ActionFor(users, parse, batch[i]).Abort?
  }

  /** The records processed before the batch is abandoned, or all of them. */
  function Processed(users: Users, parse: DateParser, batch: seq<Punch>): (done: seq<Punch>)
    ensures done <= batch
    ensures forall i :: 0 <= i < |done| ==> !ActionFor(users, parse, done[i]).Abort?
    ensures |done| < |batch| ==> ActionFor(users, parse, batch[|done|]).Abort?
  {
    if batch == [] then []
    else if ActionFor(users, parse, batch[0]).Abort? then []
    else [batch[0]] + Processed(users, parse, batch[1..])
  }

  /** Both table constraints hold after a batch if they held before it. */
  lemma {:induction false} IngestKeepsConstraints(users: Users, parse: DateParser, rows: seq<Row>, batch: seq<Punch>)
    requires NoDuplicates(rows) && RowsReferToUsers(rows, users)
    ensures NoDuplicates(Ingest(users, parse, rows, batch))
    ensures RowsReferToUsers(Ingest(users, parse, rows, batch), users)
    decreases |batch|
  {
    if batch != [] {
      match ActionFor(users, parse, batch[0])
      case Skip => IngestKeepsConstraints(users, parse, rows, batch[1..]);
      case Abort =>
      case Offer(row) => IngestKeepsConstraints(users, parse, Insert(users, rows, row), batch[1..]);
    }
  }

  /** Every row the batch offers before it is abandoned ends up in the log. */
  lemma {:induction false} IngestStoresOffered(users: Users, parse: DateParser, rows: seq<Row>, batch: seq<Punch>)
    ensures forall p :: p in Processed(users, parse, batch) && ActionFor(users, parse, p).Offer? ==>
              ActionFor(users, parse, p).row in Ingest(users, parse, rows, batch)
    decreases |batch|
  {
    if batch != [] {
      match ActionFor(users, parse, batch[0])
      case Skip =>
        IngestStoresOffered(users, parse, rows, batch[1..]);
      case Abort =>
      case Offer(row) =>
        var next := Insert(users, rows, row);
        IngestStoresOffered(users, parse, next, batch[1..]);
    }
  }

  /** Once a record aborts the batch, the records after it have no effect:
      the batch acts as the records processed before the abort. */
  lemma {:induction false} IngestStopsAtAbort(users: Users, parse: DateParser, rows: seq<Row>, batch: seq<Punch>)
    ensures Ingest(users, parse, rows, batch) == Ingest(users, parse, rows, Processed(users, parse, batch))
    decreases |batch|
  {
    if batch != [] {
      var done := Processed(users, parse, batch);
      match ActionFor(users, parse, batch[0])
      case Skip =>
        assert done[0] == batch[0] && done[1..] == Processed(users, parse, batch[1..]);
        IngestStopsAtAbort(users, parse, rows, batch[1..]);
      case Abort =>
      case Offer(row) =>
        assert done[0] == batch[0] && done[1..] == Processed(users, parse, batch[1..]);
        IngestStopsAtAbort(users, parse, Insert(users, rows, row), batch[1..]);
    }
  }

  /** Every row a batch adds is the (SSN, instant) pair of one of its valid
      records whose user exists, processed before any abort: the SSN is that
      user's and the CHECKTIME is that record's own parsed `record_time`. */
  lemma {:induction false} IngestProvenance(users: Users, parse: DateParser, rows: seq<Row>, batch: seq<Punch>, r: Row)
    requires r in Ingest(users, parse, rows, batch) && r !in rows
    ensures exists p :: p in Processed(users, parse, batch) && Truthy(p) && p.userId.value in users &&
              parse(p.recordTime.value).Some? &&
              r == Row(users[p.userId.value], parse(p.recordTime.value).value)
    decreases |batch|
  {
    var done := Processed(users, parse, batch);
    match ActionFor(users, parse, batch[0])
    case Skip =>
      assert done == [batch[0]] + Processed(users, parse, batch[1..]);
      IngestProvenance(users, parse, rows, batch[1..], r);
      var p :| p in Processed(users, parse, batch[1..]) && Truthy(p) && p.userId.value in users &&
               parse(p.recordTime.value).Some? &&
               r == Row(users[p.userId.value], parse(p.recordTime.value).value);
      assert p in done;
    case Offer(row) =>
      assert done == [batch[0]] + Processed(users, parse, batch[1..]);
      var next := Insert(users, rows, row);
      if r in next {
        assert r == row;
        assert batch[0] in done;
      } else {
        IngestProvenance(users, parse, next, batch[1..], r);
        var p :| p in Processed(users, parse, batch[1..]) && Truthy(p) && p.userId.value in users &&
                 parse(p.recordTime.value).Some? &&
                 r == Row(users[p.userId.value], parse(p.recordTime.value).value);
        assert p in done;
      }
  }

  /** A log that already holds every row the batch offers is left as it is. */
  lemma {:induction false} IngestCoveredIsFixpoint(users: Users, parse: DateParser, rows: seq<Row>, batch: seq<Punch>)
    requires forall p :: p in Processed(users, parse, batch) && ActionFor(users, parse, p).Offer? ==>
               ActionFor(users, parse, p).row in rows
    ensures Ingest(users, parse, rows, batch) == rows
  {
    if batch != [] {
      match ActionFor(users, parse, batch[0])
      case Skip =>
        assert Processed(users, parse, batch) == [batch[0]] + Processed(users, parse, batch[1..]);
        IngestCoveredIsFixpoint(users, parse, rows, batch[1..]);
      case Abort =>
      case Offer(row) =>
        assert Processed(users, parse, batch) == [batch[0]] + Processed(users, parse, batch[1..]);
        assert row in rows;
        IngestCoveredIsFixpoint(users, parse, rows, batch[1..]);
    }
  }

  /** Idempotence: processing the same batch a second time changes nothing. */
  lemma {:induction false} IngestIdempotent(users: Users, parse: DateParser, rows: seq<Row>, batch: seq<Punch>)
    ensures Ingest(users, parse, Ingest(users, parse, rows, batch), batch) == Ingest(users, parse, rows, batch)
  {
    IngestStoresOffered(users, parse, rows, batch);
    IngestCoveredIsFixpoint(users, parse, Ingest(users, parse, rows, batch), batch);
  }

  /** A record that is skipped (falsy fields or unknown user) neither adds a
      row nor stops the batch: the batch acts as if it were not there. */
  lemma {:induction false} IngestIgnoresSkipped(users: Users, parse: DateParser, rows: seq<Row>, batch: seq<Punch>, i: nat)
    requires i < |batch| && ActionFor(users, parse, batch[i]).Skip?
    ensures Ingest(users, parse, rows, batch) == Ingest(users, parse, rows, batch[..i] + batch[i + 1..])
    decreases |batch|
  {
    var without := batch[..i] + batch[i + 1..];
    if i == 0 {
      assert without == batch[1..];
    } else {
      assert without[0] == batch[0] && without[1..] == batch[1..][..i - 1] + batch[1..][i..];
      match ActionFor(users, parse, batch[0])
      case Skip => IngestIgnoresSkipped(users, parse, rows, batch[1..], i - 1);
      case Abort =>
      case Offer(row) => IngestIgnoresSkipped(users, parse, Insert(users, rows, row), batch[1..], i - 1);
    }
  }

  /** The attendance store: the users the core reads and the log it writes. */
  class Store {
    const users: Users
    var rows: seq<Row>

    /** The DDL constraints: UNIQUE(SSN) on `tbl_user`, UNIQUE(SSN, CHECKTIME)
        and the foreign key on `tbl_checkinout`. */
    ghost predicate Valid()
      reads this
    {
      UniqueSsns(users) && NoDuplicates(rows) && RowsReferToUsers(rows, users)
    }

    constructor (users: Users, rows: seq<Row>)
      requires UniqueSsns(users) && NoDuplicates(rows) && RowsReferToUsers(rows, users)
      ensures Valid() && this.users == users && this.rows == rows
    {
      this.users := users;
      this.rows := rows;
    }

    /** `isDuplicateLog`: whether the log holds a row (SSN, CHECKTIME),
        by counting the matching rows. */
    method IsDuplicateLog(ssn: string, checkTime: int) returns (duplicate: bool)
      ensures duplicate <==> Row(ssn, checkTime) in rows
    {
      var count := 0;
      var i := 0;
      while i < |rows|
        invariant 0 <= i <= |rows|
        invariant count > 0 <==> Row(ssn, checkTime) in rows[..i]
      {
        if rows[i] == Row(ssn, checkTime) {
          count := count + 1;
        }
        assert rows[..i + 1] == rows[..i] + [rows[i]];
        i := i + 1;
      }
      assert rows[..i] == rows;
      duplicate := count > 0;
    }

    /** `insertAttendanceLog`: a duplicate check, then the INSERT, which the
        foreign key refuses for an SSN no user has. */
    method InsertAttendanceLog(ssn: string, checkTime: int)
      requires Valid()
      modifies this
      ensures Valid()
      ensures rows == Insert(users, old(rows), Row(ssn, checkTime))
    {
      var duplicate := IsDuplicateLog(ssn, checkTime);
      if duplicate {
        return;
      }
      if ssn !in users.Values {
        return;
      }
      rows := rows + [Row(ssn, checkTime)];
    }

    /** The per-record loop of `fetchLogsFromFile`. Returns whether every
        record was processed. */
    method FetchLogsFromFile(content: StagedContent, parse: DateParser) returns (completed: bool)
      requires Valid()
      modifies this
      ensures Valid()
      ensures !content.PunchList? ==> rows == old(rows) && !completed
      ensures content.PunchList? ==> rows == Ingest(users, parse, old(rows), content.items)
      ensures content.PunchList? ==> (completed <==> Completes(users, parse, content.items))
    {
      if !content.PunchList? {
        return false;
      }
      var batch := content.items;
      var i := 0;
      while i < |batch|
        invariant 0 <= i <= |batch|
        invariant Valid()
        invariant Ingest(users, parse, rows, batch[i..]) == Ingest(users, parse, old(rows), batch)
        invariant forall j :: 0 <= j < i ==> !ActionFor(users, parse, batch[j]).Abort?
      {
        var log := batch[i];
        IngestStep(users, parse, rows, batch, i);
        if !Truthy(log) {
          i := i + 1;
          continue;
        }
        var user := SsnOf(users, log.userId.value);
        if user.Some? {
          var instant := parse(log.recordTime.value);
          if instant.None? {
            assert ActionFor(users, parse, batch[i]).Abort?;
            return false;
          }
          InsertAttendanceLog(user.value, instant.value);
        }
        i := i + 1;
      }
      completed := true;
    }
  }
}
