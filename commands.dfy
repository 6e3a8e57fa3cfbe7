/** The command engine of the bot (tododo/commands.go): it routes a slash
    command to its handler, checks the argument text, talks to the task
    repository and lays out the reply as Block Kit blocks. A handler's
    reply is the block tree; the bytes sent are `JsonText.Marshal` of it.

    Each handler method is proved against an outcome function of the
    repository's state before the call: the reply, the table after it and
    the statements it ran. */
module Commands {
  import opened Wrappers
  import opened Strings
  import opened StrConv
  import opened Blocks
  import opened TaskStore

  // The fixed texts of the replies.
  const MarkdownType: string := "mrkdwn"
  const PlainTextType: string := "plain_text"
  const DividerType: string := "divider"
  const HelpHeader: string := "Welcome! ToDo do can:"
  const ShowHeader: string := "ToDo"
  const AddHeader: string := "ToDo: Add task"
  const UpdateHeader: string := "ToDo: Task updated"
  const AssignBadArgsText: string := "Bad arguments. Please enter /tododo-assign [task ID] [@user]"
  const NoSuchTaskIDText: string := "Bad arguments. No task with this ID"
  const ProgressBadArgsText: string := "Bad arguments. Please enter /tododo-start [task ID]"
  const DoneBadArgsText: string := "Bad arguments. Please enter /tododo-done [task ID]"
  const HelpBlock1Text: string := "*/tododo-add [task]*: add a task to your ToDo list"
  const HelpBlock2Text: string := "*/tododo-show*: show the tasks in your ToDo list"
  const HelpBlock3Text: string := "*/tododo-assign [taskId] [@user]*: assign a task to a user"
  const HelpBlock4Text: string := "*/tododo-start [taskId]*: start progress on a task"
  const HelpBlock5Text: string := "*/tododo-done [taskId]*: finish a task"
  const StatusOpenEmoji: string := ":question:"
  const StatusInProgressEmoji: string := ":hourglass_flowing_sand:"
  const StatusDoneEmoji: string := ":white_check_mark:"
  const StatusOpenText: string := "Open"
  const StatusInProgressText: string := "In progress"
  const StatusDoneText: string := "Done"

  /** The part of a Slack slash command the engine reads. */
  datatype SlashCommand = SlashCommand(command: string, text: string, channelId: string)

  /** Why a handler gives no reply. */
  datatype CommandError = CantHandleCommand | StoreFailed(cause: StoreError)

  // ---------------------------------------------------------------------------
  // Routing

  datatype Command = Help | Add | Show | Assign | Start | Done

  function CommandName(c: Command): string {
    match c
    case Help => "/tododo-help"
    case Add => "/tododo-add"
    case Show => "/tododo-show"
    case Assign => "/tododo-assign"
    case Start => "/tododo-start"
    case Done => "/tododo-done"
  }

  /** The handler a command name selects: only the six exact names do. */
  function Route(name: string): (r: Option<Command>)
    ensures r.Some? ==> CommandName(r.value) == name
  {
    if name == "/tododo-help" then Some(Help)
    else if name == "/tododo-add" then Some(Add)
    else if name == "/tododo-show" then Some(Show)
    else if name == "/tododo-assign" then Some(Assign)
    else if name == "/tododo-start" then Some(Start)
    else if name == "/tododo-done" then Some(Done)
    else None
  }

  /** A name is routed to a handler exactly when it is that handler's name. */
  lemma RouteExact(name: string, c: Command)
    ensures Route(name) == Some(c) <==> name == CommandName(c)
  {
  }

  lemma RouteUnknown(name: string)
    ensures Route(name) == None <==> forall c: Command :: CommandName(c) != name
  {
    if Route(name) == None {
      forall c: Command ensures CommandName(c) != name {
        RouteExact(name, c);
      }
    } else {
      RouteExact(name, Route(name).value);
    }
  }

  // ---------------------------------------------------------------------------
  // Argument text

  /** Assign takes two space-separated arguments, the first a task id of
      at least 1. */
  predicate ValidateAssignCommandText(text: string) {
    var args := Split(text);
    |args| == 2 && Atoi(args[0]).Ok? && Atoi(args[0]).value >= 1
  }

  /** Start and done take one argument, a task id of at least 1. */
  predicate ValidateStatusText(text: string) {
    var args := Split(text);
    |args| == 1 && Atoi(args[0]).Ok? && Atoi(args[0]).value >= 1
  }

  /** The task id an argument text starts with. */
  function FirstArgId(text: string): int
    requires Atoi(Split(text)[0]).Ok?
  {
    Atoi(Split(text)[0]).value
  }

  /** A valid status text is a single signed numeral, without spaces, whose
      value lies between 1 and the largest 64-bit integer. */
  lemma StatusTextMeaning(text: string)
    ensures ValidateStatusText(text)
        <==> Space !in text && IsNumeral(text) && 1 <= NumeralValue(text) <= MaxInt64
    ensures ValidateStatusText(text) ==> FirstArgId(text) == NumeralValue(text)
  {
    SplitShape(text);
    NoSpaceCount(text);
    if Space !in text {
      SplitJoin([text]);
      assert Join([text]) == text;
    } else {
      assert Spaces(text) >= 1;
    }
  }

  /** `text` is a numeral from 1 to the largest 64-bit integer, a space
      at `k`, and a rest without spaces. */
  predicate AssignTextAt(text: string, k: int) {
    0 <= k < |text| && text[k] == Space && Space !in text[..k] && Space !in text[k + 1..]
    && IsNumeral(text[..k]) && 1 <= NumeralValue(text[..k]) <= MaxInt64
  }

  /** A valid assign text is a numeral as in `StatusTextMeaning`, one space,
      and an assignee holding no space (possibly empty). */
  lemma AssignTextMeaning(text: string)
    ensures ValidateAssignCommandText(text) <==> exists k :: AssignTextAt(text, k)
  {
    if ValidateAssignCommandText(text) {
      AssignTextSplits(text);
    }
    if exists k :: AssignTextAt(text, k) {
      var k :| AssignTextAt(text, k);
      AssignTextJoins(text, k);
    }
  }

  lemma AssignTextSplits(text: string)
    requires ValidateAssignCommandText(text)
    ensures AssignTextAt(text, |Split(text)[0]|)
    ensures text == Split(text)[0] + [Space] + Split(text)[1]
  {
    var args := Split(text);
    SplitShape(text);
    JoinSplit(text);
    assert Join(args) == args[0] + [Space] + args[1] by {
      assert args[1..] == [args[1]];
    }
    var k := |args[0]|;
    assert text[..k] == args[0];
    assert text[k + 1..] == args[1];
  }

  lemma AssignTextJoins(text: string, k: int)
    requires AssignTextAt(text, k)
    ensures Split(text) == [text[..k], text[k + 1..]]
    ensures ValidateAssignCommandText(text)
  {
    var a, b := text[..k], text[k + 1..];
    assert text == a + [Space] + b;
    SplitAfterWord(a, b);
    SplitJoin([b]);
    assert Join([b]) == b;
  }

  lemma {:induction false} NoSpaceCount(s: string)
    ensures Space !in s <==> Spaces(s) == 0
    decreases |s|
  {
    if |s| > 0 {
      NoSpaceCount(s[1..]);
      assert s == [s[0]] + s[1..];
    }
  }

  /** Printed with `strconv.Itoa`, an id is a valid status text exactly
      when it is at least 1, and it is read back unchanged. */
  lemma StatusTextOfId(n: int)
    requires MinInt64 <= n <= MaxInt64
    ensures ValidateStatusText(Itoa(n)) <==> n >= 1
    ensures Atoi(Split(Itoa(n))[0]).Ok? && FirstArgId(Itoa(n)) == n
  {
    ItoaNoSpace(n);
    SplitJoin([Itoa(n)]);
    assert Join([Itoa(n)]) == Itoa(n);
    AtoiItoa(n);
  }

  /** An id of at least 1, a space and an assignee without spaces make a
      valid assign text naming that id and that assignee. */
  lemma AssignTextOf(n: int, assignee: string)
    requires 1 <= n <= MaxInt64 && Space !in assignee
    ensures ValidateAssignCommandText(Itoa(n) + [Space] + assignee)
    ensures FirstArgId(Itoa(n) + [Space] + assignee) == n
    ensures Split(Itoa(n) + [Space] + assignee)[1] == assignee
  {
    ItoaNoSpace(n);
    SplitAfterWord(Itoa(n), assignee);
    SplitJoin([assignee]);
    assert Join([assignee]) == assignee;
    AtoiItoa(n);
  }

  lemma ItoaNoSpace(n: int)
    ensures Space !in Itoa(n)
  {
    ItoaChars(n);
  }

  /** Text made of one id followed by a space is valid, and assigns the
      empty assignee. */
  lemma TrailingSpaceAssignsEmpty(n: int)
    requires 1 <= n <= MaxInt64
    ensures ValidateAssignCommandText(Itoa(n) + [Space])
    ensures Split(Itoa(n) + [Space])[1] == ""
  {
    AssignTextOf(n, "");
    assert Itoa(n) + [Space] + "" == Itoa(n) + [Space];
  }

  // ---------------------------------------------------------------------------
  // Status display

  /** The emoji shown for a status; unknown statuses show nothing. */
  function StatusEmoji(status: string): (e: string)
    ensures e != "" <==> IsStatus(status)
  {
    if status == StatusOpen then StatusOpenEmoji
    else if status == StatusInProgress then StatusInProgressEmoji
    else if status == StatusDone then StatusDoneEmoji
    else ""
  }

  /** The name shown for a status; unknown statuses show nothing. */
  function StatusName(status: string): (n: string)
    ensures n != "" <==> IsStatus(status)
  {
    if status == StatusOpen then StatusOpenText
    else if status == StatusInProgress then StatusInProgressText
    else if status == StatusDone then StatusDoneText
    else ""
  }

  /** Different statuses are shown differently, by emoji and by name. */
  lemma StatusDisplayDistinct(a: string, b: string)
    requires IsStatus(a) && IsStatus(b) && a != b
    ensures StatusEmoji(a) != StatusEmoji(b)
    ensures StatusName(a) != StatusName(b)
  {
  }

  // ---------------------------------------------------------------------------
  // Replies

  function HelpReply(): Response {
    Response([NewHeaderBlock(HelpHeader), NewDividerBlock(),
              NewSectionTextBlock(MarkdownType, HelpBlock1Text),
              NewSectionTextBlock(MarkdownType, HelpBlock2Text),
              NewSectionTextBlock(MarkdownType, HelpBlock3Text),
              NewSectionTextBlock(MarkdownType, HelpBlock4Text),
              NewSectionTextBlock(MarkdownType, HelpBlock5Text)])
  }

  function AddReply(title: string): Response {
    Response([NewHeaderBlock(AddHeader), NewDividerBlock(),
              NewSectionTextBlock(MarkdownType, "*Task added*: " + title)])
  }

  /** The reply to an update that was refused: bad arguments or no such task. */
  function NoticeReply(message: string): Response {
    Response([NewHeaderBlock(UpdateHeader), NewDividerBlock(), NewSectionTextBlock(PlainTextType, message)])
  }

  /** The reply to an update that was made, read back from the table. */
  function UpdatedReply(line: string): Response {
    Response([NewHeaderBlock(UpdateHeader), NewDividerBlock(), NewSectionTextBlock(MarkdownType, line)])
  }

  /** The line an update reports for the task as read back. */
  function UpdatedLine(col: Column, t: Task): string {
    match col
    case AssigneeColumn => "Assigned: " + t.title + " - " + t.assigneeId
    case StatusColumn => "Status: " + t.title + " - " + t.status
  }

  /** The `*<id>*: <title>` field of a listed task. */
  function IdTitle(t: Task): string {
    "*" + Itoa(t.id) + "*: " + t.title
  }

  /** One listed task: four markdown fields. */
  function TaskSection(t: Task): Block {
    Block("section", None, [NewField(MarkdownType, IdTitle(t)),
                            NewField(MarkdownType, StatusEmoji(t.status)),
                            NewField(MarkdownType, t.assigneeId),
                            NewField(MarkdownType, StatusName(t.status))])
  }

  function TaskSections(tasks: seq<Task>): seq<Block> {
    seq(|tasks|, i requires 0 <= i < |tasks| => TaskSection(tasks[i]))
  }

  function ShowReply(tasks: seq<Task>): Response {
    Response([NewHeaderBlock(ShowHeader), NewDividerBlock()] + TaskSections(tasks))
  }

  /** The listing shows a header, a divider, then one section of four
      fields per task, in the order given. */
  lemma ShowReplyLayout(tasks: seq<Task>)
    ensures var bs := ShowReply(tasks).blocks;
      |bs| == 2 + |tasks|
      && bs[0] == NewHeaderBlock(ShowHeader) && bs[1] == NewDividerBlock()
      && forall i :: 0 <= i < |tasks| ==>
           bs[2 + i].blockType == "section" && bs[2 + i].text == None && |bs[2 + i].fields| == 4
           && bs[2 + i].fields[0].text == IdTitle(tasks[i])
           && bs[2 + i].fields[2].text == tasks[i].assigneeId
  {
    var bs := ShowReply(tasks).blocks;
    assert |bs| == 2 + |tasks|;
    forall i | 0 <= i < |tasks|
      ensures bs[2 + i].blockType == "section" && bs[2 + i].text == None && |bs[2 + i].fields| == 4
           && bs[2 + i].fields[0].text == IdTitle(tasks[i])
           && bs[2 + i].fields[2].text == tasks[i].assigneeId
    {
      ShowReplyBlock(tasks, i);
      TaskSectionShape(tasks[i]);
    }
  }

  lemma ShowReplyBlock(tasks: seq<Task>, i: int)
    requires 0 <= i < |tasks|
    ensures |ShowReply(tasks).blocks| == 2 + |tasks| && ShowReply(tasks).blocks[2 + i] == TaskSection(tasks[i])
  {
  }

  lemma TaskSectionShape(t: Task)
    ensures TaskSection(t).blockType == "section" && TaskSection(t).text == None && |TaskSection(t).fields| == 4
    ensures TaskSection(t).fields[0].text == IdTitle(t) && TaskSection(t).fields[1].text == StatusEmoji(t.status)
    ensures TaskSection(t).fields[2].text == t.assigneeId && TaskSection(t).fields[3].text == StatusName(t.status)
  {
  }

  /** With every status one of the three, no listed task shows an empty
      emoji or status name. */
  lemma ShowReplyStatuses(tasks: seq<Task>)
    requires StatusesValid(tasks)
    ensures forall i :: 2 <= i < |ShowReply(tasks).blocks| ==>
      ShowReply(tasks).blocks[i].fields[1].text != "" && ShowReply(tasks).blocks[i].fields[3].text != ""
  {
    forall i | 2 <= i < |ShowReply(tasks).blocks|
      ensures ShowReply(tasks).blocks[i].fields[1].text != "" && ShowReply(tasks).blocks[i].fields[3].text != ""
    {
      ShowReplyBlock(tasks, i - 2);
      TaskSectionShape(tasks[i - 2]);
    }
  }

  // ---------------------------------------------------------------------------
  // What each handler does, as a function of the repository's state

  /** The reply, the table and id counter afterwards, and the repository
      statements run, in order. */
  datatype Outcome = Outcome(reply: Result<Response, CommandError>, rows: seq<Task>, nextId: int, calls: seq<Call>)

  function HelpOutcome(rows: seq<Task>, nextId: int): Outcome {
    Outcome(Ok(HelpReply()), rows, nextId, [])
  }

  function AddOutcome(db: Connection, rows: seq<Task>, nextId: int, text: string, channelId: string): Outcome {
    var t := NewTask(text, channelId);
    match InsertError(db)
    case Some(e) => Outcome(Err(StoreFailed(e)), rows, nextId, [PersistCall(t)])
    case None => Outcome(Ok(AddReply(t.title)), Insert(rows, nextId, t), nextId + 1, [PersistCall(t)])
  }

  function ShowOutcome(db: Connection, rows: seq<Task>, nextId: int, channelId: string): Outcome {
    var c := [GetAllInChannelCall(channelId)];
    match Listing(db, rows, channelId)
    case Err(e) => Outcome(Err(StoreFailed(e)), rows, nextId, c)
    case Ok(tasks) => Outcome(Ok(ShowReply(tasks)), rows, nextId, c)
  }

  function WriteCall(id: int, col: Column, v: string): Call {
    match col
    case AssigneeColumn => AssignTaskToCall(id, v)
    case StatusColumn => SetStatusCall(id, v)
  }

  /** An update of a checked id: write, then read the task back. */
  function UpdateOutcome(db: Connection, rows: seq<Task>, nextId: int, id: int, col: Column, v: string): Outcome {
    var write := WriteCall(id, col, v);
    var after := if db.Down? then rows else Update(rows, id, col, v);
    var err := WriteError(db, rows, id);
    if err == Some(ErrNoRowOrMoreThanOne) then Outcome(Ok(NoticeReply(NoSuchTaskIDText)), after, nextId, [write])
    else if err.Some? then Outcome(Err(StoreFailed(err.value)), after, nextId, [write])
    else
      var calls := [write, GetTaskByIdCall(id)];
      match Lookup(db, after, id)
      case Err(e) => Outcome(Err(StoreFailed(e)), after, nextId, calls)
      case Ok(t) => Outcome(Ok(UpdatedReply(UpdatedLine(col, t))), after, nextId, calls)
  }

  /** Nothing is run and the command's usage is shown. */
  function Refused(rows: seq<Task>, nextId: int, badArgs: string): Outcome {
    Outcome(Ok(NoticeReply(badArgs)), rows, nextId, [])
  }

  function AssignOutcome(db: Connection, rows: seq<Task>, nextId: int, text: string): Outcome {
    if !ValidateAssignCommandText(text) then Refused(rows, nextId, AssignBadArgsText)
    else UpdateOutcome(db, rows, nextId, FirstArgId(text), AssigneeColumn, Split(text)[1])
  }

  /** Start (`status` In Progress) and done (`status` Done). */
  function StatusOutcome(db: Connection, rows: seq<Task>, nextId: int, text: string, status: string, badArgs: string): Outcome {
    if !ValidateStatusText(text) then Refused(rows, nextId, badArgs)
    else UpdateOutcome(db, rows, nextId, FirstArgId(text), StatusColumn, status)
  }

  function CommandOutcome(db: Connection, rows: seq<Task>, nextId: int, c: SlashCommand): Outcome {
    match Route(c.command)
    case None => Outcome(Err(CantHandleCommand), rows, nextId, [])
    case Some(Help) => HelpOutcome(rows, nextId)
    case Some(Add) => AddOutcome(db, rows, nextId, c.text, c.channelId)
    case Some(Show) => ShowOutcome(db, rows, nextId, c.channelId)
    case Some(Assign) => AssignOutcome(db, rows, nextId, c.text)
    case Some(Start) => StatusOutcome(db, rows, nextId, c.text, StatusInProgress, ProgressBadArgsText)
    case Some(Done) => StatusOutcome(db, rows, nextId, c.text, StatusDone, DoneBadArgsText)
  }

  // ---------------------------------------------------------------------------
  // Properties of the handlers

  /** An update of a checked id. On a reachable database, a task that
      exists gets exactly that column written and the reply reports the
      written value with the task's title; a missing task gets the
      no-such-task notice and the table stays as it was. A failing
      database is reported as an error. */
  lemma UpdateSpec(db: Connection, rows: seq<Task>, nextId: int, id: int, col: Column, v: string)
    requires ValidTable(rows, nextId)
    ensures var o := UpdateOutcome(db, rows, nextId, id, col, v);
      o.nextId == nextId && ValidTable(o.rows, nextId)
      && (db.Down? ==> o == Outcome(Err(StoreFailed(DriverError(db.reason))), rows, nextId, [WriteCall(id, col, v)]))
      && (db.Up? && !HasId(rows, id) ==> o == Outcome(Ok(NoticeReply(NoSuchTaskIDText)), rows, nextId, [WriteCall(id, col, v)]))
      && (db.Up? && HasId(rows, id) ==>
            o.rows == Update(rows, id, col, v)
            && o.calls == [WriteCall(id, col, v), GetTaskByIdCall(id)]
            && o.reply == Ok(UpdatedReply(UpdatedLine(col, Put(Find(rows, id).value, col, v)))))
  {
    UpdateValid(rows, nextId, id, col, v);
    CountUnique(rows, id);
    if db.Up? {
      FindUpdated(rows, id, col, v);
      if !HasId(rows, id) {
        UpdateAbsent(rows, id, col, v);
      }
    }
  }

  /** Assign: bad text is refused without touching the repository;
      otherwise the update of `UpdateSpec` with the id and the assignee
      taken from the text. The reply names the new assignee. */
  lemma AssignSpec(db: Connection, rows: seq<Task>, nextId: int, text: string)
    requires ValidTable(rows, nextId)
    ensures var o := AssignOutcome(db, rows, nextId, text);
      (!ValidateAssignCommandText(text) ==> o == Outcome(Ok(NoticeReply(AssignBadArgsText)), rows, nextId, []))
      && (ValidateAssignCommandText(text) && db.Up? && HasId(rows, FirstArgId(text)) ==>
            var id := FirstArgId(text);
            var t := Find(rows, id).value;
            o.rows == Update(rows, id, AssigneeColumn, Split(text)[1])
            && o.reply == Ok(UpdatedReply("Assigned: " + t.title + " - " + Split(text)[1]))
            && o.calls == [AssignTaskToCall(id, Split(text)[1]), GetTaskByIdCall(id)])
  {
    if ValidateAssignCommandText(text) {
      UpdateSpec(db, rows, nextId, FirstArgId(text), AssigneeColumn, Split(text)[1]);
    }
  }

  /** Start and done: bad text is refused without touching the repository;
      otherwise the update of `UpdateSpec` writing the command's status.
      The reply shows the status as stored. */
  lemma StatusSpec(db: Connection, rows: seq<Task>, nextId: int, text: string, status: string, badArgs: string)
    requires ValidTable(rows, nextId)
    ensures var o := StatusOutcome(db, rows, nextId, text, status, badArgs);
      (!ValidateStatusText(text) ==> o == Outcome(Ok(NoticeReply(badArgs)), rows, nextId, []))
      && (ValidateStatusText(text) && db.Up? && HasId(rows, FirstArgId(text)) ==>
            var id := FirstArgId(text);
            var t := Find(rows, id).value;
            o.rows == Update(rows, id, StatusColumn, status)
            && o.reply == Ok(UpdatedReply("Status: " + t.title + " - " + status))
            && o.calls == [SetStatusCall(id, status), GetTaskByIdCall(id)])
  {
    if ValidateStatusText(text) {
      UpdateSpec(db, rows, nextId, FirstArgId(text), StatusColumn, status);
    }
  }

  /** Add takes any text: on a reachable database it stores exactly one new
      task (open, unassigned, in the command's channel) under a fresh id,
      which is then listed last in that channel and found by that id. */
  lemma AddSpec(db: Connection, rows: seq<Task>, nextId: int, text: string, channelId: string)
    requires ValidTable(rows, nextId)
    ensures var o := AddOutcome(db, rows, nextId, text, channelId);
      var t := NewTask(text, channelId).(id := nextId);
      o.calls == [PersistCall(NewTask(text, channelId))]
      && ValidTable(o.rows, o.nextId)
      && (db.Down? ==> o.reply.Err? && o.rows == rows && o.nextId == nextId)
      && (db.Up? ==>
            o.reply == Ok(AddReply(text))
            && o.rows == rows + [t] && !HasId(rows, nextId)
            && Find(o.rows, nextId) == Some(t)
            && InChannel(o.rows, channelId) == InChannel(rows, channelId) + [t])
  {
    InsertValid(rows, nextId, NewTask(text, channelId));
    InChannelInsert(rows, nextId, NewTask(text, channelId), channelId);
  }

  /** Show changes nothing and lists the channel's tasks in id order. */
  lemma ShowSpec(db: Connection, rows: seq<Task>, nextId: int, channelId: string)
    requires ValidTable(rows, nextId)
    ensures var o := ShowOutcome(db, rows, nextId, channelId);
      o.rows == rows && o.nextId == nextId && o.calls == [GetAllInChannelCall(channelId)]
      && (db.Up? ==> o.reply == Ok(ShowReply(InChannel(rows, channelId))) && IdsIncreasing(InChannel(rows, channelId)))
  {
    InChannelOrdered(rows, channelId);
  }

  /** An id the listing shows, typed back into start or done, selects that
      very task. */
  lemma ShownIdSelects(rows: seq<Task>, nextId: int, channelId: string, t: Task)
    requires ValidTable(rows, nextId) && nextId <= MaxInt64 + 1
    requires t in InChannel(rows, channelId)
    ensures ValidateStatusText(Itoa(t.id)) && FirstArgId(Itoa(t.id)) == t.id
    ensures Find(rows, FirstArgId(Itoa(t.id))) == Some(t)
  {
    var k :| 0 <= k < |rows| && rows[k] == t;
    StatusTextOfId(t.id);
    FindAt(rows, k);
  }

  lemma {:induction false} FindAt(rows: seq<Task>, k: int)
    requires IdsIncreasing(rows) && 0 <= k < |rows|
    ensures Find(rows, rows[k].id) == Some(rows[k])
    decreases |rows|
  {
    if k > 0 {
      assert rows[0].id < rows[k].id;
      var tail := rows[1..];
      assert IdsIncreasing(tail) by {
        forall i, j | 0 <= i < j < |tail| ensures tail[i].id < tail[j].id {
          assert tail[i] == rows[i + 1] && tail[j] == rows[j + 1];
        }
      }
      FindAt(tail, k - 1);
    }
  }

  /** The soft-error policy: an unknown command is the only routing error;
      bad arguments and a missing task are answered normally; on a valid
      table every other error comes from the database driver, and
      `ErrNoRowOrMoreThanOne` is never passed on. */
  lemma ErrorPolicy(db: Connection, rows: seq<Task>, nextId: int, c: SlashCommand)
    requires ValidTable(rows, nextId)
    ensures var o := CommandOutcome(db, rows, nextId, c);
      (o.reply == Err(CantHandleCommand) <==> Route(c.command) == None)
      && (Route(c.command) == None ==> o.rows == rows && o.nextId == nextId && o.calls == [])
      && (o.reply.Err? && Route(c.command).Some? ==> db.Down? && o.reply == Err(StoreFailed(DriverError(db.reason))))
      && (db.Up? ==> o.reply.Ok? || Route(c.command) == None)
  {
    match Route(c.command)
    case None =>
    case Some(Help) =>
    case Some(Add) =>
    case Some(Show) =>
    case Some(Assign) =>
      if ValidateAssignCommandText(c.text) {
        UpdateSpec(db, rows, nextId, FirstArgId(c.text), AssigneeColumn, Split(c.text)[1]);
      }
    case Some(Start) =>
      if ValidateStatusText(c.text) {
        UpdateSpec(db, rows, nextId, FirstArgId(c.text), StatusColumn, StatusInProgress);
      }
    case Some(Done) =>
      if ValidateStatusText(c.text) {
        UpdateSpec(db, rows, nextId, FirstArgId(c.text), StatusColumn, StatusDone);
      }
  }

  /** Every command keeps the table valid, and keeps every status one of
      the three: add stores Open, start In Progress, done Done. */
  lemma CommandKeepsTable(db: Connection, rows: seq<Task>, nextId: int, c: SlashCommand)
    requires ValidTable(rows, nextId) && StatusesValid(rows)
    ensures var o := CommandOutcome(db, rows, nextId, c);
      ValidTable(o.rows, o.nextId) && StatusesValid(o.rows) && o.nextId >= nextId
  {
    match Route(c.command)
    case None =>
    case Some(Help) =>
    case Some(Add) =>
      AddSpec(db, rows, nextId, c.text, c.channelId);
      StatusesInsert(rows, nextId, NewTask(c.text, c.channelId));
    case Some(Show) =>
    case Some(Assign) =>
      if ValidateAssignCommandText(c.text) {
        UpdateKeepsTable(db, rows, nextId, FirstArgId(c.text), AssigneeColumn, Split(c.text)[1]);
      }
    case Some(Start) =>
      if ValidateStatusText(c.text) {
        UpdateKeepsTable(db, rows, nextId, FirstArgId(c.text), StatusColumn, StatusInProgress);
      }
    case Some(Done) =>
      if ValidateStatusText(c.text) {
        UpdateKeepsTable(db, rows, nextId, FirstArgId(c.text), StatusColumn, StatusDone);
      }
  }

  lemma UpdateKeepsTable(db: Connection, rows: seq<Task>, nextId: int, id: int, col: Column, v: string)
    requires ValidTable(rows, nextId) && StatusesValid(rows) && (col == StatusColumn ==> IsStatus(v))
    ensures var o := UpdateOutcome(db, rows, nextId, id, col, v);
      ValidTable(o.rows, o.nextId) && StatusesValid(o.rows) && o.nextId == nextId
  {
    UpdateSpec(db, rows, nextId, id, col, v);
    StatusesUpdate(rows, id, col, v);
  }

  /** The sections of the listing, built task by task. */
  method ListedSections(ts: seq<Task>) returns (blocks: seq<Block>)
    ensures blocks == TaskSections(ts)
  {
    blocks := [];
    for i := 0 to |ts|
      invariant |blocks| == i
      invariant forall k :: 0 <= k < i ==> blocks[k] == TaskSection(ts[k])
    {
      var t := ts[i];
      var idTitle := NewField(MarkdownType, "*" + Itoa(t.id) + "*: " + t.title);
      var emoji := NewField(MarkdownType, StatusEmoji(t.status));
      var assignee := NewField(MarkdownType, t.assigneeId);
      var status := NewField(MarkdownType, StatusName(t.status));
      var block := NewSectionFieldsBlock([idTitle, emoji, assignee, status]);
      blocks := blocks + [block];
    }
  }

  /** The header and divider, then the sections, appended one by one. */
  method ListingArgs(header: Block, div: Block, blocks: seq<Block>) returns (args: seq<Block>)
    ensures args == [header, div] + blocks
  {
    args := [];
    args := args + [header];
    args := args + [div];
    for i := 0 to |blocks|
      invariant args == [header, div] + blocks[..i]
    {
      assert blocks[..i + 1] == blocks[..i] + [blocks[i]];
      args := args + [blocks[i]];
    }
    assert blocks[..|blocks|] == blocks;
  }

  lemma AppendTwo<T>(a: seq<T>, x: T, y: T)
    ensures a + [x] + [y] == a + [x, y]
  {
  }

  // ---------------------------------------------------------------------------
  // The handler

  class CommandHandler {
    const repository: TaskRepository

    constructor (repository: TaskRepository)
      ensures this.repository == repository
    {
      this.repository := repository;
    }

    /** The handler's effect matches outcome `o`: its reply, the table
        afterwards, and the statements run after the earlier `before`. */
    ghost predicate Realises(o: Outcome, before: seq<Call>, r: Result<Response, CommandError>)
      reads this, repository
    {
      r == o.reply && repository.rows == o.rows && repository.nextId == o.nextId
      && repository.calls == before + o.calls
    }

    method HandleCommand(c: SlashCommand) returns (r: Result<Response, CommandError>)
      requires repository.Valid()
      modifies repository
      ensures repository.Valid()
      ensures Realises(CommandOutcome(repository.db, old(repository.rows), old(repository.nextId), c), old(repository.calls), r)
    {
      var route := Route(c.command);
      match route
      case None => r := Err(CantHandleCommand);
      case Some(Help) => r := HandleHelpCommand();
      case Some(Add) => r := HandleAddCommand(c.text, c.channelId);
      case Some(Show) => r := HandleShowCommand(c.text, c.channelId);
      case Some(Assign) => r := HandleAssignCommand(c.text);
      case Some(Start) => r := HandleProgressCommand(c.text);
      case Some(Done) => r := HandleDoneCommand(c.text);
    }

    method HandleHelpCommand() returns (r: Result<Response, CommandError>)
      requires repository.Valid()
      ensures Realises(HelpOutcome(repository.rows, repository.nextId), repository.calls, r)
    {
      var header := NewHeaderBlock(HelpHeader);
      var div := NewDividerBlock();
      var block1 := NewSectionTextBlock(MarkdownType, HelpBlock1Text);
      var block2 := NewSectionTextBlock(MarkdownType, HelpBlock2Text);
      var block3 := NewSectionTextBlock(MarkdownType, HelpBlock3Text);
      var block4 := NewSectionTextBlock(MarkdownType, HelpBlock4Text);
      var block5 := NewSectionTextBlock(MarkdownType, HelpBlock5Text);
      var resp := NewResponse([header, div, block1, block2, block3, block4, block5]);
      r := Ok(resp);
    }

    method HandleAddCommand(text: string, channelId: string) returns (r: Result<Response, CommandError>)
      requires repository.Valid()
      modifies repository
      ensures repository.Valid()
      ensures Realises(AddOutcome(repository.db, old(repository.rows), old(repository.nextId), text, channelId), old(repository.calls), r)
    {
      var task := NewTask(text, channelId);
      var err := repository.PersistTask(task);
      if err.Some? {
        return Err(StoreFailed(err.value));
      }
      var header := NewHeaderBlock(AddHeader);
      var div := NewDividerBlock();
      var block1 := NewSectionTextBlock(MarkdownType, "*Task added*: " + task.title);
      var resp := NewResponse([header, div, block1]);
      r := Ok(resp);
    }

    /** Lists the channel's tasks; the argument text is not read. */
    method HandleShowCommand(text: string, channelId: string) returns (r: Result<Response, CommandError>)
      requires repository.Valid()
      modifies repository
      ensures repository.Valid()
      ensures Realises(ShowOutcome(repository.db, old(repository.rows), old(repository.nextId), channelId), old(repository.calls), r)
    {
      var tasks := repository.GetAllInChannel(channelId);
      if tasks.Err? {
        return Err(StoreFailed(tasks.error));
      }
      var ts := tasks.value;
      var header := NewHeaderBlock(ShowHeader);
      var div := NewDividerBlock();
      var blocks := ListedSections(ts);
      var args := ListingArgs(header, div, blocks);
      var resp := NewResponse(args);
      r := Ok(resp);
    }

    method HandleAssignCommand(text: string) returns (r: Result<Response, CommandError>)
      requires repository.Valid()
      modifies repository
      ensures repository.Valid()
      ensures Realises(AssignOutcome(repository.db, old(repository.rows), old(repository.nextId), text), old(repository.calls), r)
    {
      var header := NewHeaderBlock(UpdateHeader);
      var div := NewDividerBlock();
      if !ValidateAssignCommandText(text) {
        var errBlock := NewSectionTextBlock(PlainTextType, AssignBadArgsText);
        var response := NewResponse([header, div, errBlock]);
        return Ok(response);
      }
      var args := Split(text);
      var id := Atoi(args[0]).value;
      r := UpdateAndReadBack(id, AssigneeColumn, args[1]);
    }

    method HandleProgressCommand(text: string) returns (r: Result<Response, CommandError>)
      requires repository.Valid()
      modifies repository
      ensures repository.Valid()
      ensures Realises(StatusOutcome(repository.db, old(repository.rows), old(repository.nextId), text, StatusInProgress, ProgressBadArgsText), old(repository.calls), r)
    {
      r := HandleStatusCommand(text, StatusInProgress, ProgressBadArgsText);
    }

    method HandleDoneCommand(text: string) returns (r: Result<Response, CommandError>)
      requires repository.Valid()
      modifies repository
      ensures repository.Valid()
      ensures Realises(StatusOutcome(repository.db, old(repository.rows), old(repository.nextId), text, StatusDone, DoneBadArgsText), old(repository.calls), r)
    {
      r := HandleStatusCommand(text, StatusDone, DoneBadArgsText);
    }

    /** Start and done differ only in the status written and the usage text. */
    method HandleStatusCommand(text: string, status: string, badArgs: string) returns (r: Result<Response, CommandError>)
      requires repository.Valid()
      modifies repository
      ensures repository.Valid()
      ensures Realises(StatusOutcome(repository.db, old(repository.rows), old(repository.nextId), text, status, badArgs), old(repository.calls), r)
    {
      var header := NewHeaderBlock(UpdateHeader);
      var div := NewDividerBlock();
      if !ValidateStatusText(text) {
        var errBlock := NewSectionTextBlock(PlainTextType, badArgs);
        var response := NewResponse([header, div, errBlock]);
        return Ok(response);
      }
      var args := Split(text);
      var id := Atoi(args[0]).value;
      r := UpdateAndReadBack(id, StatusColumn, status);
    }

    /** Writes the column, answers a missing task with the notice, passes
        any other error on, and reports the task as read back. */
    method UpdateAndReadBack(id: int, col: Column, v: string) returns (r: Result<Response, CommandError>)
      requires repository.Valid()
      modifies repository
      ensures repository.Valid()
      ensures Realises(UpdateOutcome(repository.db, old(repository.rows), old(repository.nextId), id, col, v), old(repository.calls), r)
    {
      var header := NewHeaderBlock(UpdateHeader);
      var div := NewDividerBlock();
      var err := WriteColumn(id, col, v);
      if err == Some(ErrNoRowOrMoreThanOne) {
        var errBlock := NewSectionTextBlock(PlainTextType, NoSuchTaskIDText);
        var response := NewResponse([header, div, errBlock]);
        return Ok(response);
      } else if err.Some? {
        return Err(StoreFailed(err.value));
      }
      r := ReadBack(id, col, header, div);
      AppendTwo(old(repository.calls), WriteCall(id, col, v), GetTaskByIdCall(id));
    }

    /** `AssignTaskTo` for the assignee column, `SetStatus` for the status. */
    method WriteColumn(id: int, col: Column, v: string) returns (err: Option<StoreError>)
      requires repository.Valid()
      modifies repository
      ensures repository.Valid() && repository.nextId == old(repository.nextId)
      ensures repository.calls == old(repository.calls) + [WriteCall(id, col, v)]
      ensures err == WriteError(repository.db, old(repository.rows), id)
      ensures repository.rows == if repository.db.Down? then old(repository.rows) else Update(old(repository.rows), id, col, v)
    {
      match col {
        case AssigneeColumn => err := repository.AssignTaskTo(id, v);
        case StatusColumn => err := repository.SetStatus(id, v);
      }
    }

    /** Reads the written task back and reports the written column. */
    method ReadBack(id: int, col: Column, header: Block, div: Block) returns (r: Result<Response, CommandError>)
      requires repository.Valid()
      requires header == NewHeaderBlock(UpdateHeader) && div == NewDividerBlock()
      modifies repository
      ensures repository.Valid()
      ensures repository.rows == old(repository.rows) && repository.nextId == old(repository.nextId)
      ensures repository.calls == old(repository.calls) + [GetTaskByIdCall(id)]
      ensures r == match Lookup(repository.db, repository.rows, id)
        case Err(e) => Err(StoreFailed(e))
        case Ok(t) => Ok(UpdatedReply(UpdatedLine(col, t)))
    {
      var task := repository.GetTaskByID(id);
      if task.Err? {
        return Err(StoreFailed(task.error));
      }
      var line := match col
        case AssigneeColumn => "Assigned: " + task.value.title + " - " + task.value.assigneeId
        case StatusColumn => "Status: " + task.value.title + " - " + task.value.status;
      var block1 := NewSectionTextBlock(MarkdownType, line);
      var resp := NewResponse([header, div, block1]);
      r := Ok(resp);
    }
  }
}
