/** End-to-end behaviour of the bot over several commands. */
module Scenarios {
  import opened Wrappers
  import opened StrConv
  import opened Blocks
  import opened TaskStore
  import opened Commands

  /** A task added to a channel is shown last in that channel's listing,
      under the id the store gave it. */
  lemma AddThenShow(db: Connection, rows: seq<Task>, nextId: int, text: string, channelId: string)
    requires ValidTable(rows, nextId) && db.Up?
    ensures var added := AddOutcome(db, rows, nextId, text, channelId);
      ShowOutcome(db, added.rows, added.nextId, channelId).reply
        == Ok(ShowReply(InChannel(rows, channelId) + [Task(nextId, StatusOpen, text, NotAssigned, channelId)]))
  {
    AddSpec(db, rows, nextId, text, channelId);
  }

  /** Listing a channel twice gives the same reply and leaves the table as
      it was. */
  lemma ShowTwice(db: Connection, rows: seq<Task>, nextId: int, channelId: string)
    requires ValidTable(rows, nextId)
    ensures var first := ShowOutcome(db, rows, nextId, channelId);
      var second := ShowOutcome(db, first.rows, first.nextId, channelId);
      first.rows == rows && second.rows == rows && second.reply == first.reply
  {
    ShowSpec(db, rows, nextId, channelId);
  }

  /** Marking an existing task done a second time answers as the first
      time did: the update matches the row even though nothing changes. */
  lemma DoneTwice(db: Connection, rows: seq<Task>, nextId: int, n: int)
    requires ValidTable(rows, nextId) && db.Up? && HasId(rows, n) && 1 <= n <= MaxInt64
    ensures var first := StatusOutcome(db, rows, nextId, Itoa(n), StatusDone, DoneBadArgsText);
      var second := StatusOutcome(db, first.rows, first.nextId, Itoa(n), StatusDone, DoneBadArgsText);
      first.reply == Ok(UpdatedReply("Status: " + Find(rows, n).value.title + " - " + StatusDone))
      && second.reply == first.reply && second.rows == first.rows
  {
    StatusTextOfId(n);
    StatusSpec(db, rows, nextId, Itoa(n), StatusDone, DoneBadArgsText);
    var after := Update(rows, n, StatusColumn, StatusDone);
    FindUpdated(rows, n, StatusColumn, StatusDone);
    UpdateValid(rows, nextId, n, StatusColumn, StatusDone);
    StatusSpec(db, after, nextId, Itoa(n), StatusDone, DoneBadArgsText);
    FindUpdated(after, n, StatusColumn, StatusDone);
    UpdateTwice(rows, n, StatusColumn, StatusDone);
  }

  /** Writing the same value twice is writing it once. */
  lemma UpdateTwice(rows: seq<Task>, id: int, col: Column, v: string)
    ensures Update(Update(rows, id, col, v), id, col, v) == Update(rows, id, col, v)
  {
    var once := Update(rows, id, col, v);
    var twice := Update(once, id, col, v);
    assert |twice| == |once|;
    forall i | 0 <= i < |rows| ensures twice[i] == once[i] {
      UpdateOnlyColumn(rows, id, col, v, i);
      UpdateOnlyColumn(once, id, col, v, i);
      if rows[i].id == id {
        match col
        case StatusColumn =>
        case AssigneeColumn =>
      }
    }
  }

  /** `/tododo-add`: the new task is found under the id the store had next. */
  method AddTask(h: CommandHandler, title: string, channelId: string) returns (added: Result<Response, CommandError>)
    requires h.repository.Valid() && h.repository.db.Up?
    modifies h.repository
    ensures h.repository.Valid()
    ensures added == Ok(AddReply(title)) && h.repository.nextId == old(h.repository.nextId) + 1
    ensures Find(h.repository.rows, old(h.repository.nextId))
         == Some(Task(old(h.repository.nextId), StatusOpen, title, NotAssigned, channelId))
  {
    AddSpec(h.repository.db, h.repository.rows, h.repository.nextId, title, channelId);
    added := h.HandleAddCommand(title, channelId);
  }

  /** `/tododo-start <n>` on an existing task `t`. */
  method StartTask(h: CommandHandler, n: int, ghost t: Task) returns (started: Result<Response, CommandError>)
    requires h.repository.Valid() && h.repository.db.Up? && 1 <= n <= MaxInt64
    requires Find(h.repository.rows, n) == Some(t)
    modifies h.repository
    ensures h.repository.Valid() && h.repository.nextId == old(h.repository.nextId)
    ensures started == Ok(UpdatedReply("Status: " + t.title + " - " + StatusInProgress))
    ensures Find(h.repository.rows, n) == Some(t.(status := StatusInProgress))
  {
    var rows := h.repository.rows;
    StatusTextOfId(n);
    StatusSpec(h.repository.db, rows, h.repository.nextId, Itoa(n), StatusInProgress, ProgressBadArgsText);
    FindUpdated(rows, n, StatusColumn, StatusInProgress);
    started := h.HandleProgressCommand(Itoa(n));
  }

  /** `/tododo-done <n>` on an existing task `t`. */
  method FinishTask(h: CommandHandler, n: int, ghost t: Task) returns (done: Result<Response, CommandError>)
    requires h.repository.Valid() && h.repository.db.Up? && 1 <= n <= MaxInt64
    requires Find(h.repository.rows, n) == Some(t)
    modifies h.repository
    ensures h.repository.Valid() && h.repository.nextId == old(h.repository.nextId)
    ensures done == Ok(UpdatedReply("Status: " + t.title + " - " + StatusDone))
    ensures Find(h.repository.rows, n) == Some(t.(status := StatusDone))
  {
    var rows := h.repository.rows;
    StatusTextOfId(n);
    StatusSpec(h.repository.db, rows, h.repository.nextId, Itoa(n), StatusDone, DoneBadArgsText);
    FindUpdated(rows, n, StatusColumn, StatusDone);
    done := h.HandleDoneCommand(Itoa(n));
  }

  /** A session on a live handler: add a task, start it, finish it. The
      task ends up done under the id the store handed out, and every reply
      is a normal one. */
  method AddStartDone(h: CommandHandler, title: string, channelId: string)
      returns (added: Result<Response, CommandError>, started: Result<Response, CommandError>,
               done: Result<Response, CommandError>)
    requires h.repository.Valid() && h.repository.db.Up? && h.repository.nextId <= MaxInt64
    modifies h.repository
    ensures h.repository.Valid()
    ensures added == Ok(AddReply(title))
    ensures started == Ok(UpdatedReply("Status: " + title + " - " + StatusInProgress))
    ensures done == Ok(UpdatedReply("Status: " + title + " - " + StatusDone))
    ensures Find(h.repository.rows, old(h.repository.nextId))
         == Some(Task(old(h.repository.nextId), StatusDone, title, NotAssigned, channelId))
  {
    var id := h.repository.nextId;
    var t := Task(id, StatusOpen, title, NotAssigned, channelId);
    added := AddTask(h, title, channelId);
    started := StartTask(h, id, t);
    done := FinishTask(h, id, t.(status := StatusInProgress));
  }
}
