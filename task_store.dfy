/** The TASK table of mysql/task_mysql.go as an in-memory table. Rows carry
    an id the store assigns on insertion (MySQL AUTO_INCREMENT: every new
    id is larger than all earlier ones); an update matches the rows with
    the given id and succeeds only when exactly one row is affected. */
module TaskStore {
  import opened Wrappers

  // Status column values.
  const StatusOpen: string := "Open"
  const StatusInProgress: string := "In Progress"
  const StatusDone: string := "Done"

  /** The assignee a new task starts with. */
  const NotAssigned: string := "Not assigned"

  predicate IsStatus(s: string) {
    s == StatusOpen || s == StatusInProgress || s == StatusDone
  }

  datatype Task = Task(id: int, status: string, title: string, assigneeId: string, channelId: string)

  /** Failures the repository reports: the "exactly one row" error of the
      updates, the not-found error of a single-row query, and any error of
      the database driver (connection refused, broken pipe, ...). */
  datatype StoreError = ErrNoRowOrMoreThanOne | ErrNoRows | DriverError(reason: string)

  /** The database behind the repository: reachable, or failing every
      statement with the driver's reason. */
  datatype Connection = Up | Down(reason: string)

  /** The statements a repository has been asked to run, in order. */
  datatype Call =
    | PersistCall(task: Task)
    | GetTaskByIdCall(id: int)
    | GetAllInChannelCall(channelId: string)
    | AssignTaskToCall(id: int, assigneeId: string)
    | SetStatusCall(id: int, status: string)

  /** A task as the bot creates it: open, not assigned, no id yet. */
  function NewTask(title: string, channelId: string): (t: Task)
    ensures t.status == StatusOpen && IsStatus(t.status)
    ensures t.assigneeId == NotAssigned
    ensures t.title == title && t.channelId == channelId
    ensures t.id == 0
  {
    Task(0, StatusOpen, title, NotAssigned, channelId)
  }

  // ---------------------------------------------------------------------------
  // The table as a value

  predicate HasId(rows: seq<Task>, id: int) {
    exists i :: 0 <= i < |rows| && rows[i].id == id
  }

  /** Ids in insertion order are strictly increasing, hence unique. */
  predicate IdsIncreasing(rows: seq<Task>) {
    forall i, j :: 0 <= i < j < |rows| ==> rows[i].id < rows[j].id
  }

  /** A table the store can be in: ids start at 1 and lie below the next
      id to hand out. */
  predicate ValidTable(rows: seq<Task>, nextId: int) {
    1 <= nextId && IdsIncreasing(rows) && forall i :: 0 <= i < |rows| ==> 1 <= rows[i].id < nextId
  }

  /** The number of rows an `UPDATE ... WHERE ID = id` matches. */
  function CountId(rows: seq<Task>, id: int): (n: nat)
    ensures n <= |rows|
    ensures n == 0 <==> !HasId(rows, id)
    decreases |rows|
  {
    if |rows| == 0 then 0
    else
      var n := CountId(rows[1..], id);
      assert forall i :: 1 <= i < |rows| ==> rows[i] == rows[1..][i - 1];
      (if rows[0].id == id then 1 else 0) + n
  }

  /** The row a `SELECT ... WHERE ID = id` returns first. */
  function Find(rows: seq<Task>, id: int): (r: Option<Task>)
    ensures r.Some? <==> HasId(rows, id)
    ensures r.Some? ==> r.value.id == id && r.value in rows
    decreases |rows|
  {
    if |rows| == 0 then None
    else if rows[0].id == id then Some(rows[0])
    else
      var r := Find(rows[1..], id);
      assert forall i :: 1 <= i < |rows| ==> rows[i] == rows[1..][i - 1];
      r
  }

  /** The rows of a channel, in table order. */
  function InChannel(rows: seq<Task>, channelId: string): (r: seq<Task>)
    ensures |r| <= |rows|
    ensures forall t :: t in r <==> t in rows && t.channelId == channelId
    decreases |rows|
  {
    if |rows| == 0 then []
    else
      var init := rows[..|rows| - 1];
      var last := rows[|rows| - 1];
      assert rows == init + [last];
      InChannel(init, channelId) + (if last.channelId == channelId then [last] else [])
  }

  /** The table after an insert: the task goes last under the next id; the
      id the caller put in the task is not used. */
  function Insert(rows: seq<Task>, nextId: int, t: Task): seq<Task> {
    rows + [t.(id := nextId)]
  }

  /** The two columns the repository updates. */
  datatype Column = StatusColumn | AssigneeColumn

  function Get(t: Task, col: Column): string {
    match col
    case StatusColumn => t.status
    case AssigneeColumn => t.assigneeId
  }

  function Put(t: Task, col: Column, v: string): Task {
    match col
    case StatusColumn => t.(status := v)
    case AssigneeColumn => t.(assigneeId := v)
  }

  /** The table after `UPDATE TASK SET col = v WHERE ID = id`. */
  function Update(rows: seq<Task>, id: int, col: Column, v: string): seq<Task> {
    seq(|rows|, i requires 0 <= i < |rows| => if rows[i].id == id then Put(rows[i], col, v) else rows[i])
  }

  /** What an update reports: nothing when it matched exactly one row, the
      "exactly one row" error otherwise. */
  function UpdateError(rows: seq<Task>, id: int): Option<StoreError> {
    if CountId(rows, id) == 1 then None else Some(ErrNoRowOrMoreThanOne)
  }

  // What the repository's statements return, given the connection

  /** The error `PersistTask` returns. */
  function InsertError(db: Connection): Option<StoreError> {
    if db.Down? then Some(DriverError(db.reason)) else None
  }

  /** The error `AssignTaskTo` or `SetStatus` returns. */
  function WriteError(db: Connection, rows: seq<Task>, id: int): Option<StoreError> {
    if db.Down? then Some(DriverError(db.reason)) else UpdateError(rows, id)
  }

  /** What `GetTaskByID` returns. */
  function Lookup(db: Connection, rows: seq<Task>, id: int): (r: Result<Task, StoreError>)
    ensures r.Ok? <==> db.Up? && HasId(rows, id)
    ensures r.Ok? ==> r.value.id == id && r.value in rows
    ensures db.Up? && r.Err? ==> r.error == ErrNoRows
  {
    if db.Down? then Err(DriverError(db.reason))
    else match Find(rows, id)
      case Some(t) => Ok(t)
      case None => Err(ErrNoRows)
  }

  /** What `GetAllInChannel` returns. */
  function Listing(db: Connection, rows: seq<Task>, channelId: string): (r: Result<seq<Task>, StoreError>)
    ensures r.Ok? <==> db.Up?
  {
    if db.Down? then Err(DriverError(db.reason)) else Ok(InChannel(rows, channelId))
  }

  // ---------------------------------------------------------------------------
  // Properties of the table

  /** With unique ids an update matches one row exactly when the id is in
      the table, so `ErrNoRowOrMoreThanOne` means "no such task". */
  lemma {:induction false} CountUnique(rows: seq<Task>, id: int)
    requires IdsIncreasing(rows)
    ensures CountId(rows, id) == if HasId(rows, id) then 1 else 0
    decreases |rows|
  {
    if |rows| > 0 {
      var tail := rows[1..];
      assert IdsIncreasing(tail) by {
        forall i, j | 0 <= i < j < |tail| ensures tail[i].id < tail[j].id {
          assert tail[i] == rows[i + 1] && tail[j] == rows[j + 1];
        }
      }
      CountUnique(tail, id);
      if rows[0].id == id {
        assert !HasId(tail, id) by {
          forall i | 0 <= i < |tail| ensures tail[i].id != id {
            assert tail[i] == rows[i + 1];
          }
        }
      } else if HasId(rows, id) {
        var i :| 0 <= i < |rows| && rows[i].id == id;
        assert tail[i - 1].id == id;
      }
    }
  }

  lemma UpdateErrorMeaning(rows: seq<Task>, id: int)
    requires IdsIncreasing(rows)
    ensures UpdateError(rows, id) == None <==> HasId(rows, id)
    ensures UpdateError(rows, id) != None ==> UpdateError(rows, id) == Some(ErrNoRowOrMoreThanOne)
  {
    CountUnique(rows, id);
  }

  /** An update changes exactly its column of the rows with that id. */
  lemma UpdateOnlyColumn(rows: seq<Task>, id: int, col: Column, v: string, i: int)
    requires 0 <= i < |rows|
    ensures |Update(rows, id, col, v)| == |rows|
    ensures var u := Update(rows, id, col, v)[i];
      u.id == rows[i].id && u.title == rows[i].title && u.channelId == rows[i].channelId
      && (rows[i].id == id ==> Get(u, col) == v)
      && (col == StatusColumn ==> u.assigneeId == rows[i].assigneeId)
      && (col == AssigneeColumn ==> u.status == rows[i].status)
      && (rows[i].id != id ==> u == rows[i])
  {
  }

  /** An update of an id that is not in the table leaves it as it was. */
  lemma UpdateAbsent(rows: seq<Task>, id: int, col: Column, v: string)
    requires !HasId(rows, id)
    ensures Update(rows, id, col, v) == rows
  {
    var u := Update(rows, id, col, v);
    assert |u| == |rows|;
    forall i | 0 <= i < |rows| ensures u[i] == rows[i] {
      assert rows[i].id != id;
    }
  }

  /** Updates keep ids, so a valid table stays valid. */
  lemma UpdateValid(rows: seq<Task>, nextId: int, id: int, col: Column, v: string)
    requires ValidTable(rows, nextId)
    ensures ValidTable(Update(rows, id, col, v), nextId)
  {
    var u := Update(rows, id, col, v);
    assert forall i :: 0 <= i < |rows| ==> u[i].id == rows[i].id;
  }

  /** Reading a row back after updating it gives the written value. */
  lemma {:induction false} FindUpdated(rows: seq<Task>, id: int, col: Column, v: string)
    ensures Find(Update(rows, id, col, v), id)
         == match Find(rows, id) case Some(t) => Some(Put(t, col, v)) case None => None
    decreases |rows|
  {
    var u := Update(rows, id, col, v);
    if |rows| > 0 && rows[0].id != id {
      FindUpdated(rows[1..], id, col, v);
      assert u[1..] == Update(rows[1..], id, col, v);
    }
  }

  /** Rows of other ids are found as they were. */
  lemma {:induction false} FindOther(rows: seq<Task>, id: int, other: int, col: Column, v: string)
    requires other != id
    ensures Find(Update(rows, id, col, v), other) == Find(rows, other)
    decreases |rows|
  {
    var u := Update(rows, id, col, v);
    if |rows| > 0 {
      assert u[0].id == rows[0].id;
      if rows[0].id != other {
        FindOther(rows[1..], id, other, col, v);
        assert u[1..] == Update(rows[1..], id, col, v);
      }
    }
  }

  /** An insert keeps a table valid and hands out an id not yet in it. */
  lemma InsertValid(rows: seq<Task>, nextId: int, t: Task)
    requires ValidTable(rows, nextId)
    ensures ValidTable(Insert(rows, nextId, t), nextId + 1)
    ensures !HasId(rows, nextId)
    ensures Find(Insert(rows, nextId, t), nextId) == Some(t.(id := nextId))
  {
    var r := Insert(rows, nextId, t);
    FindLast(rows, t.(id := nextId));
  }

  lemma {:induction false} FindLast(rows: seq<Task>, t: Task)
    requires !HasId(rows, t.id)
    ensures Find(rows + [t], t.id) == Some(t)
    decreases |rows|
  {
    if |rows| > 0 {
      assert rows[0].id != t.id;
      assert (rows + [t])[1..] == rows[1..] + [t];
      FindLast(rows[1..], t);
    } else {
      assert rows + [t] == [t];
    }
  }

  /** The rows of a channel come in increasing id order. */
  lemma {:induction false} InChannelOrdered(rows: seq<Task>, channelId: string)
    requires IdsIncreasing(rows)
    ensures IdsIncreasing(InChannel(rows, channelId))
    decreases |rows|
  {
    if |rows| > 0 {
      var init := rows[..|rows| - 1];
      var last := rows[|rows| - 1];
      assert IdsIncreasing(init);
      InChannelOrdered(init, channelId);
      var r := InChannel(init, channelId);
      forall t | t in r ensures t.id < last.id {
        var k :| 0 <= k < |init| && init[k] == t;
      }
    }
  }

  /** Scanning one more row extends the listing by that row, if it is in
      the channel. */
  lemma InChannelStep(rows: seq<Task>, i: int, channelId: string)
    requires 0 <= i < |rows|
    ensures InChannel(rows[..i + 1], channelId)
         == InChannel(rows[..i], channelId) + (if rows[i].channelId == channelId then [rows[i]] else [])
  {
    assert rows[..i + 1][..i] == rows[..i];
  }

  /** A task inserted into a channel is listed last for that channel;
      the listings of other channels are unchanged. */
  lemma InChannelInsert(rows: seq<Task>, nextId: int, t: Task, channelId: string)
    ensures InChannel(Insert(rows, nextId, t), channelId)
         == InChannel(rows, channelId) + (if t.channelId == channelId then [t.(id := nextId)] else [])
  {
    var r := Insert(rows, nextId, t);
    assert r[..|r| - 1] == rows;
  }

  /** The status column keeps to the three status values. */
  predicate StatusesValid(rows: seq<Task>) {
    forall i :: 0 <= i < |rows| ==> IsStatus(rows[i].status)
  }

  lemma StatusesInsert(rows: seq<Task>, nextId: int, t: Task)
    requires StatusesValid(rows) && IsStatus(t.status)
    ensures StatusesValid(Insert(rows, nextId, t))
  {
    var r := Insert(rows, nextId, t);
    assert forall i :: 0 <= i < |rows| ==> r[i] == rows[i];
  }

  lemma StatusesUpdate(rows: seq<Task>, id: int, col: Column, v: string)
    requires StatusesValid(rows) && (col == StatusColumn ==> IsStatus(v))
    ensures StatusesValid(Update(rows, id, col, v))
  {
    var u := Update(rows, id, col, v);
    forall i | 0 <= i < |rows| ensures IsStatus(u[i].status) {
      UpdateOnlyColumn(rows, id, col, v, i);
    }
  }

  // ---------------------------------------------------------------------------
  // Rows affected, as the driver reports them

  /** The rows an update CHANGES: the MySQL driver reports these as rows
      affected unless the connection asks for found rows. A row that
      already holds the value does not count. */
  function ChangedCount(rows: seq<Task>, id: int, col: Column, v: string): nat
    decreases |rows|
  {
    if |rows| == 0 then 0
    else (if rows[0].id == id && Get(rows[0], col) != v then 1 else 0) + ChangedCount(rows[1..], id, col, v)
  }

  /** The outcome of `SetStatus`/`AssignTaskTo` under that count. */
  function UpdateErrorAsWritten(rows: seq<Task>, id: int, col: Column, v: string): Option<StoreError> {
    if ChangedCount(rows, id, col, v) == 1 then None else Some(ErrNoRowOrMoreThanOne)
  }

  lemma {:induction false} ChangedNone(rows: seq<Task>, id: int, col: Column, v: string)
    requires forall i :: 0 <= i < |rows| && rows[i].id == id ==> Get(rows[i], col) == v
    ensures ChangedCount(rows, id, col, v) == 0
    decreases |rows|
  {
    if |rows| > 0 {
      assert forall i :: 0 <= i < |rows[1..]| ==> rows[1..][i] == rows[i + 1];
      ChangedNone(rows[1..], id, col, v);
    }
  }

  /** Under changed-rows counting, writing the value a task already holds
      (marking a done task done again, assigning the same person again)
      reports `ErrNoRowOrMoreThanOne` although the task exists. */
  lemma RewriteReportsMissing(rows: seq<Task>, id: int, col: Column, v: string)
    requires IdsIncreasing(rows)
    requires Find(rows, id).Some? && Get(Find(rows, id).value, col) == v
    ensures HasId(rows, id)
    ensures UpdateErrorAsWritten(rows, id, col, v) == Some(ErrNoRowOrMoreThanOne)
    ensures UpdateError(rows, id) == None
  {
    var t := Find(rows, id).value;
    forall i | 0 <= i < |rows| && rows[i].id == id ensures Get(rows[i], col) == v {
      var k :| 0 <= k < |rows| && rows[k] == t;
      assert rows[i] == rows[k];
    }
    ChangedNone(rows, id, col, v);
    CountUnique(rows, id);
  }

  // ---------------------------------------------------------------------------
  // The repository

  class TaskRepository {
    /** The database handle, fixed when the repository is made. */
    const db: Connection
    var rows: seq<Task>
    /** The AUTO_INCREMENT counter of the ID column. */
    var nextId: int
    /** The statements run so far. */
    ghost var calls: seq<Call>

    predicate Valid()
      reads this
    {
      ValidTable(rows, nextId)
    }

    /** A repository over a database that already holds `rows`. */
    constructor (db: Connection, rows: seq<Task>, nextId: int)
      requires ValidTable(rows, nextId)
      ensures Valid()
      ensures this.db == db && this.rows == rows && this.nextId == nextId && calls == []
    {
      this.db := db;
      this.rows := rows;
      this.nextId := nextId;
      calls := [];
    }

    /** `INSERT INTO TASK (STATUS, TITLE, ASIGNEE_ID, CHANNEL_ID)`. */
    method PersistTask(t: Task) returns (err: Option<StoreError>)
      requires Valid()
      modifies this
      ensures Valid()
      ensures calls == old(calls) + [PersistCall(t)]
      ensures err == InsertError(db)
      ensures db.Down? ==> rows == old(rows) && nextId == old(nextId)
      ensures db.Up? ==> rows == Insert(old(rows), old(nextId), t) && nextId == old(nextId) + 1
      ensures db.Up? ==> !HasId(old(rows), old(nextId))
    {
      calls := calls + [PersistCall(t)];
      if db.Down? {
        return Some(DriverError(db.reason));
      }
      InsertValid(rows, nextId, t);
      rows := rows + [t.(id := nextId)];
      nextId := nextId + 1;
      err := None;
    }

    /** `SELECT ... FROM TASK WHERE ID = id`. */
    method GetTaskByID(id: int) returns (r: Result<Task, StoreError>)
      requires Valid()
      modifies this
      ensures Valid()
      ensures rows == old(rows) && nextId == old(nextId)
      ensures calls == old(calls) + [GetTaskByIdCall(id)]
      ensures r == Lookup(db, rows, id)
    {
      calls := calls + [GetTaskByIdCall(id)];
      if db.Down? {
        return Err(DriverError(db.reason));
      }
      var found := Find(rows, id);
      if found.None? {
        return Err(ErrNoRows);
      }
      r := Ok(found.value);
    }

    /** `SELECT ... FROM TASK WHERE CHANNEL_ID = channelId`, collected row
        by row. */
    method GetAllInChannel(channelId: string) returns (r: Result<seq<Task>, StoreError>)
      requires Valid()
      modifies this
      ensures Valid()
      ensures rows == old(rows) && nextId == old(nextId)
      ensures calls == old(calls) + [GetAllInChannelCall(channelId)]
      ensures r == Listing(db, rows, channelId)
    {
      calls := calls + [GetAllInChannelCall(channelId)];
      if db.Down? {
        return Err(DriverError(db.reason));
      }
      var all := rows;
      var tasks: seq<Task> := [];
      var i := 0;
      while i < |all|
        modifies {}
        invariant 0 <= i <= |all|
        invariant tasks == InChannel(all[..i], channelId)
      {
        InChannelStep(all, i, channelId);
        if all[i].channelId == channelId {
          tasks := tasks + [all[i]];
        }
        i := i + 1;
      }
      assert all[..i] == all;
      r := Ok(tasks);
    }

    /** `UPDATE TASK SET col = v WHERE ID = id`, then the rows-affected check. */
    method UpdateColumn(id: int, col: Column, v: string) returns (err: Option<StoreError>)
      requires Valid()
      modifies this`rows
      ensures Valid()
      ensures err == WriteError(db, old(rows), id)
      ensures rows == if db.Down? then old(rows) else Update(old(rows), id, col, v)
    {
      if db.Down? {
        return Some(DriverError(db.reason));
      }
      var matched := CountId(rows, id);
      UpdateValid(rows, nextId, id, col, v);
      rows := Update(rows, id, col, v);
      err := if matched == 1 then None else Some(ErrNoRowOrMoreThanOne);
    }

    /** Sets the assignee of task `taskId`. */
    method AssignTaskTo(taskId: int, assigneeId: string) returns (err: Option<StoreError>)
      requires Valid()
      modifies this
      ensures Valid()
      ensures nextId == old(nextId)
      ensures calls == old(calls) + [AssignTaskToCall(taskId, assigneeId)]
      ensures err == WriteError(db, old(rows), taskId)
      ensures rows == if db.Down? then old(rows) else Update(old(rows), taskId, AssigneeColumn, assigneeId)
    {
      calls := calls + [AssignTaskToCall(taskId, assigneeId)];
      err := UpdateColumn(taskId, AssigneeColumn, assigneeId);
    }

    /** Sets the status of task `taskId`. */
    method SetStatus(taskId: int, status: string) returns (err: Option<StoreError>)
      requires Valid()
      modifies this
      ensures Valid()
      ensures nextId == old(nextId)
      ensures calls == old(calls) + [SetStatusCall(taskId, status)]
      ensures err == WriteError(db, old(rows), taskId)
      ensures rows == if db.Down? then old(rows) else Update(old(rows), taskId, StatusColumn, status)
    {
      calls := calls + [SetStatusCall(taskId, status)];
      err := UpdateColumn(taskId, StatusColumn, status);
    }
  }
}
