# tododo — a Dafny model of the to-do bot's command engine

This project models the core of the Slack to-do bot `tododo`:

- the command engine in `tododo/commands.go`. It routes the six slash commands, checks their argument text, calls the task repository and lays out each reply as Slack Block Kit blocks;
- the block types and constructors in `tododo/blocks.go`, with the JSON text `encoding/json` writes for them;
- the task repository in `mysql/task_mysql.go`. It is modelled as an in-memory TASK table with an AUTO_INCREMENT id counter;
- the reply texts in `tododo/constans.go`, copied verbatim.

Modules, one per file:

| file | module | what it holds |
|---|---|---|
| `wrappers.dfy` | `Wrappers` | `Option` and `Result` |
| `strings.dfy` | `Strings` | `strings.Split(text, " ")` and its inverse `Join` |
| `strconv.dfy` | `StrConv` | `strconv.Atoi` (optional sign, decimal digits, 64-bit range, the error kind of its digit loop) and `strconv.Itoa` |
| `blocks.dfy` | `Blocks` | `Response`, `Block`, `BlockText`, `BlockField` and their constructors |
| `block_json.dfy` | `BlockJson` | the JSON value tree the struct tags describe (`omitempty` included), and reading it back |
| `json_text.dfy` | `JsonText` | the text `json.Marshal` writes, with Go's string escaping, and reading an escaped string back |
| `block_wire.dfy` | `BlockWire` | the wire text of each kind of block, for every text |
| `wire_examples.dfy` | `WireExamples` | the wire texts documented beside the constructors |
| `task_store.dfy` | `TaskStore` | `Task`, `NewTask`, the table as a value, and the `TaskRepository` class |
| `commands.dfy` | `Commands` | routing, validators, status display, replies, outcome functions and the `CommandHandler` class |
| `scenarios.dfy` | `Scenarios` | behaviour over several commands |

The repository is a class.
- It has fields `rows` and `nextId`, a `db` connection and a ghost log `calls` of the statements run.
- Each of its five operations appends its statement to `calls`. Only the writes (`PersistTask`, `AssignTaskTo`, `SetStatus`) change `rows` and `nextId`; the two reads leave them as they were.
- `GetAllInChannel` collects rows in a loop, as the Go scan loop does.

The command handler is a class that holds the repository. Each handler method is proved against an *outcome function* of the state before the call. The outcome function gives the reply, the rows and id counter afterwards, and the statements run. Lemmas about the outcome functions state what each command does.

The connection is a parameter of the repository (`Up`, or `Down(reason)`). A `Down` connection makes every statement fail with the driver's reason.

Where the code and its documentation disagree on rows affected, the documented behaviour (matched rows) is followed; the code as written is modelled separately, see "## Findings".

## Model

| member | source | states |
|---|---|---|
| Strings.JoinSplit | tododo/commands.go:237 | `strings.Split` on `" "` loses nothing: joining the pieces with single spaces gives the text back |
| Strings.SplitShape | tododo/commands.go:237-238 | the number of pieces is the number of spaces plus one, and no piece contains a space, so empty pieces appear between adjacent spaces |
| Strings.SplitJoin | tododo/commands.go:250-251 | splitting space-free pieces joined by spaces gives those pieces back |
| Strings.SplitAfterWord | tododo/commands.go:237 | a space-free word, a space, then a rest split into the word followed by the pieces of the rest |
| Strings.Split | tododo/commands.go:237 | `strings.Split(text, " ")` always has at least one piece, the empty text giving one empty piece; `SplitShape`, `JoinSplit` and `SplitJoin` state the rest |
| StrConv.Atoi | tododo/commands.go:241-242 | a result exists exactly for an optionally signed run of decimal digits whose value fits in 64 bits; it is that value; other numerals give a range error; other text gives a range error when its digits before the first non-digit already exceed 64 unsigned bits, and a syntax error otherwise |
| StrConv.ScanDigits | tododo/commands.go:241-242 | the digit loop `strconv.Atoi` runs after the sign: a value only for text of digits alone, and then at most the largest 64-bit unsigned value |
| StrConv.ScanDigitsMeaning | tododo/commands.go:241-242 | the digit loop, stated without the loop: a range error when the leading digit run exceeds 64 unsigned bits, else a syntax error when a non-digit follows it, else its value |
| StrConv.AtoiStopsAt | tododo/commands.go:241-242 | unsigned text whose digits stop at a non-digit is a range error when those digits exceed 64 unsigned bits and a syntax error otherwise |
| StrConv.AtoiRangeFirst | tododo/commands.go:241-242 | `"99999999999999999999x"` is a range error, not a syntax error |
| StrConv.AtoiSyntaxFirst | tododo/commands.go:241-242 | `"12x99999999999999999999"` is a syntax error: the non-digit comes before any overflow |
| StrConv.Itoa | tododo/commands.go:94 | `strconv.Itoa` never writes the empty text; `AtoiItoa` and `ItoaChars` state what it writes |
| StrConv.AtoiItoa | tododo/commands.go:94 | `Atoi` reads back every 64-bit value written by `Itoa` |
| StrConv.ItoaChars | tododo/commands.go:94 | `Itoa` writes only digits, after an optional leading minus |
| Blocks.NewSectionTextBlock | tododo/blocks.go:28-33 | a `section` block with the given text element and no fields |
| Blocks.NewSectionFieldsBlock | tododo/blocks.go:37-46 | a `section` block with no text and exactly the given fields, in order |
| Blocks.NewHeaderBlock | tododo/blocks.go:50-55 | a `header` block whose text element is `plain_text` with the given text |
| Blocks.NewDividerBlock | tododo/blocks.go:59-63 | a `divider` block with neither text nor fields |
| Blocks.NewField | tododo/blocks.go:67-72 | a field with the given type and text |
| Blocks.NewResponse | tododo/blocks.go:76-84 | a response holding exactly the given blocks, in order |
| BlockJson.OmitEmpty | tododo/blocks.go:8-12 | a block's JSON keys are `type`, then `text` exactly when it has a text element, then `fields` exactly when it has at least one field |
| BlockJson.BlockToJson | tododo/blocks.go:8-12 | the object `encoding/json` makes of a block under its struct tags; `OmitEmpty` and `BlockRoundTrip` state what it holds |
| BlockJson.TextToJson | tododo/blocks.go:15-18 | a text element as an object of `type` then `text`, both strings; `TextRoundTrip` reads it back |
| BlockJson.FieldToJson | tododo/blocks.go:21-24 | a field as an object of `type` then `text`, both strings; `FieldsRoundTrip` reads a list of them back |
| BlockJson.ResponseToJson | tododo/blocks.go:4-6 | the object made of a response: one `blocks` member holding the block array; `ResponseRoundTrip` states that it loses nothing |
| BlockJson.TextRoundTrip | tododo/blocks.go:15-24 | reading back a marshalled text element or field gives it back |
| BlockJson.FieldsRoundTrip | tododo/blocks.go:11 | reading back a marshalled field list gives the list back |
| BlockJson.BlockRoundTrip | tododo/blocks.go:8-12 | reading back a marshalled block gives the block back, so omitting empty members loses nothing |
| BlockJson.BlocksRoundTrip | tododo/blocks.go:5 | reading back a marshalled block list gives the list back |
| BlockJson.ResponseRoundTrip | tododo/blocks.go:4-6 | reading back a marshalled response gives the response back |
| BlockJson.LookupBlockText | tododo/blocks.go:10 | the `text` member of a marshalled block holds its text element, and is absent when the block has none |
| BlockJson.LookupBlockFields | tododo/blocks.go:11 | the `fields` member holds the field array, and is absent when there are no fields |
| JsonText.UnescapeEscape | tododo/commands.go:59 | the string escaping of `json.Marshal` loses nothing: decoding the escaped text gives the string |
| JsonText.UnescapeChar | tododo/commands.go:59 | each character's escape decodes to that character, whatever follows |
| JsonText.Escape | tododo/commands.go:59 | the string escaping of `json.Marshal`; `UnescapeEscape` states that it loses nothing and `QuoteVerbatim` that safe text is kept as it is |
| JsonText.Serialize | tododo/commands.go:59 | the compact text `json.Marshal` writes for a JSON value; the `BlockWire` lemmas give it for each kind of block |
| JsonText.Marshal | tododo/commands.go:59 | the bytes a handler replies with; `BlockWire.ResponseText` and `WireExamples.ExampleResponse` state them |
| JsonText.MarshalBlock | tododo/blocks_test.go:28 | the text `json.Marshal` writes for one block (also lines 63 and 80); the `BlockWire` lemmas state it per kind of block |
| JsonText.MarshalField | tododo/blocks_test.go:98 | the text `json.Marshal` writes for one field; `BlockWire.FieldText` states it |
| JsonText.QuoteVerbatim | tododo/blocks.go:9 | a string with no character needing escaping is written as itself between quotation marks |
| JsonText.TextElementText | tododo/blocks.go:15-18 | a text element is written as `{"type":…,"text":…}` with both strings escaped |
| BlockWire.SectionTextBlockText | tododo/blocks.go:28-33 | a text section is written as `{"type":"section","text":{…}}` for every text type and text |
| BlockWire.HeaderBlockText | tododo/blocks.go:50-55 | a header is written as `{"type":"header","text":{"type":"plain_text","text":…}}` |
| BlockWire.DividerBlockText | tododo/blocks.go:59-63 | a divider is written as `{"type":"divider"}` |
| BlockWire.FieldText | tododo/blocks.go:67-72 | a field is written as `{"type":…,"text":…}` |
| BlockWire.SectionFieldsBlockText | tododo/blocks.go:37-46 | a fields section is written as `type` then the field array; with no fields the `fields` member is left out |
| BlockWire.ResponseText | tododo/blocks.go:76-84 | a response is written as `{"blocks":[…]}` with the blocks comma-separated |
| WireExamples.ExampleSectionTextBlock | tododo/blocks_test.go:25-31 | the documented text of `NewSectionTextBlock("mrkdwn", "hello")` |
| WireExamples.ExampleHeaderBlock | tododo/blocks_test.go:61-66 | the documented text of `NewHeaderBlock("hello")` |
| WireExamples.ExampleDividerBlock | tododo/blocks_test.go:78-83 | the documented text of `NewDividerBlock()` |
| WireExamples.ExampleField | tododo/blocks_test.go:96-101 | the documented text of `NewField("mrkdwn", "hello")` |
| WireExamples.ExampleResponse | tododo/blocks_test.go:120-128 | the documented text of a response of a header, a divider and a section, the three block texts, comma-separated |
| TaskStore.NewTask | mysql/task_mysql.go:30-39 | a new task is open, not assigned, in the given channel with the given title, and has no id yet |
| TaskStore.Find | mysql/task_mysql.go:78-96 | a task is found exactly when a row has that id; the task found has that id and is one of the rows |
| TaskStore.CountId | mysql/task_mysql.go:143-145 | the rows an update matches: at most the table's size, and none exactly when no row has the id |
| TaskStore.Insert | mysql/task_mysql.go:55-74 | the table after `PersistTask`: the task appended under the next id; `InsertValid` and `InChannelInsert` state its effect |
| TaskStore.Update | mysql/task_mysql.go:128-129 | the table after an update statement; `UpdateOnlyColumn`, `FindUpdated` and `FindOther` state its effect |
| TaskStore.UpdateError | mysql/task_mysql.go:144-148 | the error an update reports under matched-rows counting; `UpdateErrorMeaning` states it |
| TaskStore.InsertError | mysql/task_mysql.go:55-74 | `PersistTask` fails with the driver's reason exactly when the database is down |
| TaskStore.WriteError | mysql/task_mysql.go:127-173 | `AssignTaskTo` and `SetStatus` fail with the driver's reason when the database is down, and otherwise as `UpdateError` says |
| TaskStore.Lookup | mysql/task_mysql.go:78-96 | `GetTaskByID` succeeds exactly when the database is up and holds the id; a missing id gives `sql.ErrNoRows` |
| TaskStore.Listing | mysql/task_mysql.go:99-125 | `GetAllInChannel` succeeds exactly when the database is up |
| TaskStore.InChannel | mysql/task_mysql.go:99-125 | the tasks listed are exactly the rows in that channel |
| TaskStore.CountUnique | mysql/task_mysql.go:143-147 | with unique ids an update matches one row if the id exists and none otherwise |
| TaskStore.UpdateErrorMeaning | mysql/task_mysql.go:127-149 | an update reports no error exactly when the task exists; any error it reports is `ErrNoRowOrMoreThanOne` |
| TaskStore.UpdateOnlyColumn | mysql/task_mysql.go:128-129 | an update writes its one column of the rows with that id, and changes nothing else |
| TaskStore.UpdateAbsent | mysql/task_mysql.go:143-147 | an update of an id not in the table leaves it as it was |
| TaskStore.UpdateValid | mysql/task_mysql.go:152-173 | updates keep ids, so a valid table stays valid |
| TaskStore.FindUpdated | mysql/task_mysql.go:152-173 | reading a task back after an update gives the written value |
| TaskStore.FindOther | mysql/task_mysql.go:152-173 | tasks with other ids are read back as they were |
| TaskStore.InsertValid | mysql/task_mysql.go:55-74 | an insert keeps the table valid, uses an id not yet in it, and the new task is then found under that id |
| TaskStore.InChannelOrdered | mysql/task_mysql.go:99-125 | a channel's tasks come in increasing id order |
| TaskStore.InChannelInsert | mysql/task_mysql.go:55-74 | an inserted task is listed last in its channel; other channels' listings are unchanged |
| TaskStore.InChannelStep | mysql/task_mysql.go:116-123 | scanning one more row extends the listing by that row exactly when it is in the channel |
| TaskStore.StatusesInsert | mysql/task_mysql.go:11-16 | inserting a task with a valid status keeps every status one of the three |
| TaskStore.StatusesUpdate | mysql/task_mysql.go:11-16 | an update writing a valid status, or writing the assignee, keeps every status one of the three |
| TaskStore.RewriteReportsMissing | mysql/task_mysql.go:143-147 | under changed-rows counting, rewriting the value a task already holds reports `ErrNoRowOrMoreThanOne` although the task exists (see Findings) |
| TaskStore.ChangedCount | mysql/task_mysql.go:143-144 | the rows an update changes, which the driver reports under the connection string of main.go:19; `RewriteReportsMissing` states its result for a rewrite |
| TaskStore.UpdateErrorAsWritten | mysql/task_mysql.go:143-148 | the error an update reports as the code is written, under changed-rows counting |
| TaskStore.TaskRepository.constructor | mysql/task_mysql.go:50-53 | a repository over a connection and a valid table, with no statements run |
| TaskStore.TaskRepository.PersistTask | mysql/task_mysql.go:55-74 | on a reachable database the task is appended under the next id and the counter advances; on a failing one nothing changes and the driver's error is returned |
| TaskStore.TaskRepository.GetTaskByID | mysql/task_mysql.go:76-96 | returns `Lookup` of the table and changes nothing |
| TaskStore.TaskRepository.GetAllInChannel | mysql/task_mysql.go:98-125 | the scan loop returns `Listing` of the table and changes nothing |
| TaskStore.TaskRepository.UpdateColumn | mysql/task_mysql.go:143-147 | the table becomes `Update` of the old one, and the error is `ErrNoRowOrMoreThanOne` unless exactly one row matched |
| TaskStore.TaskRepository.AssignTaskTo | mysql/task_mysql.go:127-149 | writes the assignee column of that task, and the error is as for `UpdateColumn` |
| TaskStore.TaskRepository.SetStatus | mysql/task_mysql.go:151-173 | writes the status column of that task, and the error is as for `UpdateColumn` |
| Commands.Route | tododo/commands.go:31-47 | a command name selects a handler only if it is that handler's name |
| Commands.RouteExact | tododo/commands.go:32-44 | a name is routed to a handler if and only if it is exactly that handler's name |
| Commands.RouteUnknown | tododo/commands.go:46 | a name gets no handler exactly when it is none of the six names |
| Commands.StatusTextMeaning | tododo/commands.go:248-259 | a start or done text is valid if and only if it has no space and is a numeral from 1 to the largest 64-bit integer; the id is its value |
| Commands.AssignTextMeaning | tododo/commands.go:235-246 | an assign text is valid if and only if it is such a numeral, one space, and an assignee with no space (possibly empty) |
| Commands.ValidateAssignCommandText | tododo/commands.go:235-246 | exactly two pieces, the first read by `Atoi` as at least 1; `AssignTextMeaning` states it without `Split` and `Atoi` |
| Commands.ValidateStatusText | tododo/commands.go:248-259 | exactly one piece, read by `Atoi` as at least 1; `StatusTextMeaning` states it without `Split` and `Atoi` |
| Commands.AssignTextSplits | tododo/commands.go:235-246 | a valid assign text is its id text, a space and its assignee |
| Commands.AssignTextJoins | tododo/commands.go:235-246 | an id numeral, a space and a space-free rest make a valid text that splits into those two |
| Commands.StatusTextOfId | tododo/commands.go:248-259 | an id written by `Itoa` is a valid status text exactly when it is at least 1, and names that id |
| Commands.AssignTextOf | tododo/commands.go:235-246 | an id of at least 1, a space and a space-free assignee make a valid assign text naming that id and assignee |
| Commands.TrailingSpaceAssignsEmpty | tododo/commands.go:237-238 | an id followed by one space is a valid assign text whose assignee is empty |
| Commands.StatusEmoji | tododo/commands.go:261-272 | the emoji is non-empty exactly for the three statuses |
| Commands.StatusName | tododo/commands.go:274-285 | the status name is non-empty exactly for the three statuses |
| Commands.StatusDisplayDistinct | tododo/commands.go:261-285 | different statuses get different emojis and different names |
| Commands.HelpReply | tododo/commands.go:50-58 | the help listing: a header, a divider and the five help sections |
| Commands.AddReply | tododo/commands.go:73-76 | the add reply: a header, a divider and the added title |
| Commands.NoticeReply | tododo/commands.go:117-121 | the reply to a refused update: a header, a divider and a plain-text notice |
| Commands.UpdatedReply | tododo/commands.go:146-147 | the reply to an update made: a header, a divider and the read-back line |
| Commands.UpdatedLine | tododo/commands.go:146 | the read-back line: `Assigned: <title> - <assignee>` for assign, `Status: <title> - <status>` for start and done (also lines 186 and 226) |
| Commands.TaskSection | tododo/commands.go:94-98 | one listed task; `TaskSectionShape` states its four fields |
| Commands.IdTitle | tododo/commands.go:94 | the first field of a listed task: its id written by `Itoa` between asterisks, then its title; `ShownIdSelects` states that the id leads back to the task |
| Commands.ShowReply | tododo/commands.go:90-107 | the listing reply; `ShowReplyLayout` and `ShowReplyStatuses` state its layout |
| Commands.ShowReplyLayout | tododo/commands.go:90-106 | the listing is a header, a divider, then one four-field section per task in the order given, showing `*id*: title` and the assignee |
| Commands.ShowReplyStatuses | tododo/commands.go:94-97 | with valid statuses no listed task shows an empty emoji or status name |
| Commands.TaskSectionShape | tododo/commands.go:94-98 | a task's section holds id and title, emoji, assignee and status name, in that order |
| Commands.CommandOutcome | tododo/commands.go:31-47 | what one command does to the table, and its reply; `ErrorPolicy` and `CommandKeepsTable` state it for all commands |
| Commands.HelpOutcome | tododo/commands.go:50-64 | help replies with the help listing, runs no statement and changes nothing |
| Commands.Refused | tododo/commands.go:119-127 | the bad-argument branch of assign, start and done (also lines 159-167 and 199-207): the usage notice, no statement run, nothing changed |
| Commands.AddOutcome | tododo/commands.go:67-82 | what add does; `AddSpec` states it |
| Commands.ShowOutcome | tododo/commands.go:85-113 | what show does; `ShowSpec` states it |
| Commands.UpdateOutcome | tododo/commands.go:128-152 | what an update with a checked id does; `UpdateSpec` states it |
| Commands.AssignOutcome | tododo/commands.go:116-153 | what assign does; `AssignSpec` states it |
| Commands.StatusOutcome | tododo/commands.go:156-233 | what start and done do; `StatusSpec` states it |
| Commands.UpdateSpec | tododo/commands.go:129-152 | an update of an existing task writes that column and reports the read-back value with the title; a missing task gets the no-such-task notice and no change; a failing database is an error |
| Commands.AssignSpec | tododo/commands.go:116-153 | bad text is refused without a repository call; otherwise the assignee is written and reported |
| Commands.StatusSpec | tododo/commands.go:156-233 | bad text is refused without a repository call; otherwise the status is written and shown as stored |
| Commands.AddSpec | tododo/commands.go:67-82 | add stores exactly one new open, unassigned task under a fresh id, then found by that id and listed last in its channel |
| Commands.ShowSpec | tododo/commands.go:85-113 | show changes nothing and lists the channel's tasks in id order |
| Commands.ShownIdSelects | tododo/commands.go:94 | an id shown in the listing, typed into start or done, selects that very task |
| Commands.FindAt | mysql/task_mysql.go:78-96 | with increasing ids each row is found by its own id |
| Commands.ErrorPolicy | tododo/commands.go:31-233 | an unknown command is the only routing error; bad arguments and missing tasks get normal replies; every other error comes from the driver, and `ErrNoRowOrMoreThanOne` is never passed on |
| Commands.CommandKeepsTable | tododo/commands.go:31-47 | every command keeps the table valid and every status one of the three |
| Commands.UpdateKeepsTable | tododo/commands.go:129-153 | an update keeps the table valid and every status one of the three |
| Commands.ListedSections | tododo/commands.go:92-100 | the first loop of show builds one section per task, in order |
| Commands.ListingArgs | tododo/commands.go:101-106 | the second loop gives the header, the divider, then the sections |
| Commands.CommandHandler.constructor | tododo/commands.go:25-28 | a handler over the given repository |
| Commands.CommandHandler.HandleCommand | tododo/commands.go:31-47 | the reply and the new repository state are those of `CommandOutcome` |
| Commands.CommandHandler.HandleHelpCommand | tododo/commands.go:50-64 | the help reply, with no repository call |
| Commands.CommandHandler.HandleAddCommand | tododo/commands.go:67-82 | realises `AddOutcome` |
| Commands.CommandHandler.HandleShowCommand | tododo/commands.go:85-113 | realises `ShowOutcome` |
| Commands.CommandHandler.HandleAssignCommand | tododo/commands.go:116-153 | realises `AssignOutcome` |
| Commands.CommandHandler.HandleProgressCommand | tododo/commands.go:156-193 | realises `StatusOutcome` with status `In Progress` |
| Commands.CommandHandler.HandleDoneCommand | tododo/commands.go:196-233 | realises `StatusOutcome` with status `Done` |
| Commands.CommandHandler.HandleStatusCommand | tododo/commands.go:156-193 | the part start and done share, realising `StatusOutcome` |
| Commands.CommandHandler.UpdateAndReadBack | tododo/commands.go:129-152 | write, then notice, pass on the error, or read back: realises `UpdateOutcome` |
| Commands.CommandHandler.WriteColumn | tododo/commands.go:130 | runs `AssignTaskTo` or `SetStatus` for the column, with their effect and error |
| Commands.CommandHandler.ReadBack | tododo/commands.go:182-187 | reads the task and reports it, or passes on the read error |
| Scenarios.AddThenShow | tododo/commands.go:67-113 | a task just added is shown last in its channel's listing under its new id |
| Scenarios.ShowTwice | tododo/commands.go:85-113 | listing twice gives the same reply and leaves the table as it was |
| Scenarios.DoneTwice | tododo/commands.go:196-233 | marking a task done twice answers the same both times, with matched-rows counting |
| Scenarios.UpdateTwice | mysql/task_mysql.go:152-173 | writing the same value twice is writing it once |
| Scenarios.AddTask | tododo/commands.go:67-82 | on a live handler the new task is found under the id the store had next |
| Scenarios.StartTask | tododo/commands.go:156-193 | start on an existing task sets it in progress and reports so |
| Scenarios.FinishTask | tododo/commands.go:196-233 | done on an existing task sets it done and reports so |
| Scenarios.AddStartDone | tododo/commands.go:67-233 | add, start, done on a live handler: three normal replies, and the task ends done under its new id |

## Left out

- The HTTP server, the Slack verification-token check and the database setup in `main.go` and `commandHandler.go` are not part of this model. A handler's reply is the response value; its bytes are `JsonText.Marshal` of it.
- The transactions and prepared statements of the repository (`Begin`, `Prepare`, `Commit`, `Close`) are not modelled. Each operation is one atomic step on the table.
- When `Begin` fails, the Go code calls `Rollback` on a nil transaction (mysql/task_mysql.go:61-63 and the same lines in each method), which panics. The model returns the driver's error instead.
- When `Exec` fails in `AssignTaskTo` or `SetStatus`, the Go code calls `RowsAffected` on a nil result (mysql/task_mysql.go:143-144, 167-168), which panics. The model returns the driver's error instead.
- The connection is fixed when the repository is made. A database that fails between two statements of one command is not modelled.
- Concurrent requests are not modelled. `net/http` serves requests concurrently against one database, so another request's write can land between `AssignTaskTo` or `SetStatus` and the `GetTaskByID` that reads the task back, and the reply would report that write. The model gives each command the table to itself.
- TaskStore.TaskRepository.PersistTask: the id counter steps by exactly one. MySQL promises only a larger id (`auto_increment_increment`, gaps after failed inserts). Nothing in the commands relies on the step being one, only on the new id being fresh and larger than every id in the table.
- The list, person and channel repositories, and the `models` package, are not part of this model.
- Errors of `json.Marshal` cannot occur for these types and are not modelled.
- JsonText.Unescape: surrogate pairs are not decoded. Characters outside the Basic Multilingual Plane are not escaped by `JsonText.Escape`: Dafny characters are code points.
- JsonText.Escape: backspace and form feed are written as `\u0008` and `\u000c`, as Go releases before 1.22 do; later releases write `\b` and `\f`.
- Task ids are unbounded integers. The 64-bit range matters only where text is read with `Atoi`, and the model states that bound there.
- The order in which MySQL returns a channel's rows is taken to be table order, which is increasing id order.
- Go pointers (`*Block`, `*Task`) are modelled as values. Nothing in the core mutates a block or a task after building it.
- The argument text of `/tododo-show` is not read, as in the Go code.
- TaskStore.TaskRepository.UpdateColumn: counts the rows an update matches, and the handlers rely on that count, as the doc comments at mysql/task_mysql.go:127 and 151 describe. The driver's default count of changed rows is modelled only in `TaskStore.UpdateErrorAsWritten` (see Findings).

## Findings

| source | as written | input that shows it | evidently intended | confidence | as-written member | corrected member |
|---|---|---|---|---|---|---|
| mysql/task_mysql.go:143-147, with main.go:19 | the update succeeds only when `RowsAffected` is 1. The DSN does not set `clientFoundRows`, so the MySQL driver counts changed rows, and rewriting a value a task already holds counts 0 | `/tododo-done 1` sent twice for an existing task 1, or the same user assigned twice: the second reply is "Bad arguments. No task with this ID" | succeed whenever exactly one task has that id, as the doc comments at mysql/task_mysql.go:127 and 151 say | not executed | TaskStore.RewriteReportsMissing | TaskStore.UpdateErrorMeaning |
