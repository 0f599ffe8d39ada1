# Weekly tasks: roles, week keys and task-state transitions

A Dafny model of the decision logic of the weekly-tasks card (`weekly_tasks_module.js`). The card tracks a Monday-to-Friday checklist shared by a keyholder and a sub through a remote document, with viewers having read-only access. The model covers three parts:

- **Role resolution** (`RoleResolver`). `getRole` decides the acting role from four page signals, first match wins. The order is the mode label text, the `data-role` hint, the `?role=` parameter and `window.UI_ROLE`; the default is `viewer`. An unrecognised label or hint falls through to the next source. An unrecognised non-empty query or override value gives `viewer`.
- **Week and day keys** (`TimeKey`). The Monday offset, the week key `YYYY-MM-DD` of the Monday on or before today, the column of today (Mon..Fri → 0..4, else -1) and the calendar month key `YYYY-MM` are computed from today's civil date and weekday. Both are read from one instant. Date arithmetic is done in the proleptic Gregorian calendar, one day at a time.
- **Task state** (`TaskState`, `RemoteState`). The class `WeeklyTasks` holds the live checklist `config` and the completion table `done` (week key → task id → row of booleans). Its methods are the handlers:
  - checkbox toggle with the "all done today" calendar cascade;
  - add, delete and rename in the editor;
  - save.
  
  The result of each HTTP patch is an input. `ClassifyPatch` decides success as `postPatch` does.

`Text` holds the JavaScript string operations these rely on: `trim`, ASCII `toLowerCase`, `includes`, `String(n)`, `padStart(2,'0')`, `split('-')` and `Number`.

Points where the code's behaviour is easy to misread:

- The toggle patch sends the whole copied week map (`{weeklyDone: {[weekKey]: done}}`): the patch carries every task's row of that week.
- Add, delete and rename change the live checklist at once. Only save goes through a patch.
- Delete and rename check the role resolved when the editor was last rendered, so the model passes that role in. Toggle, add and save resolve it at the click, so the model passes in the page signals of that moment and resolves them with `ResolveRole`.
- There is no "force editor" flag in this version of the code. Visibility of the editor depends on the role only.
- When no remote URL is configured, the toggle and save commit without sending anything.

## Model

| member | source | states |
|---|---|---|
| `Text.Lower` | weekly_tasks_module.js:52 | lower-casing keeps the length, maps each character on its own and leaves no ASCII capital |
| `Text.Trim` | weekly_tasks_module.js:52 | `trim` is never longer than its input and leaves no whitespace at either end |
| `Text.TrimSpec` | weekly_tasks_module.js:52 | `trim` keeps one contiguous slice `s[a..b]` and cuts off only whitespace (`s[..a]` and `s[b..]`); the result is empty exactly when the string is all whitespace |
| `Text.TrimIdempotent` | weekly_tasks_module.js:261 | trimming a trimmed label changes nothing |
| `Text.Contains` | weekly_tasks_module.js:53-54 | `includes` holds exactly when the substring occurs at some position |
| `Text.NatToStringRoundTrip` | weekly_tasks_module.js:23 | the decimal form of a number reads back as that number |
| `Text.Pad2` | weekly_tasks_module.js:23 | `padStart(2,'0')` gives at least two digits that read back as the number, exactly two below 100 |
| `Text.SplitAtFirst` | weekly_tasks_module.js:18 | `split` cuts at the first separator and splits the rest the same way |
| `RoleResolver.ModeLabelKeyholderWins` | weekly_tasks_module.js:50-53 | a mode label whose trimmed, lower-cased text contains "keyholder" gives keyholder whatever the other signals say |
| `RoleResolver.ModeLabelSubWins` | weekly_tasks_module.js:54 | otherwise a label containing "locked pet" or equal to "sub" gives sub |
| `RoleResolver.UnmatchedLabelFallsThrough` | weekly_tasks_module.js:51-55 | any other label resolves as if there were no label |
| `RoleResolver.HintDecides` | weekly_tasks_module.js:58-62 | when the label did not decide, a `data-role` of keyholder/kh/owner (any case) gives keyholder, sub/pet gives sub, viewer/view gives viewer |
| `RoleResolver.UnmatchedHintFallsThrough` | weekly_tasks_module.js:58-62 | any other hint resolves as if there were no hint |
| `RoleResolver.QueryAlwaysDecides` | weekly_tasks_module.js:64-70 | a non-empty `?role=` always decides, and the override is not consulted: a keyholder token gives keyholder, a sub token gives sub, anything else gives viewer |
| `RoleResolver.OverrideDecides` | weekly_tasks_module.js:72-78 | with no earlier decision, a non-empty `UI_ROLE` naming a keyholder token gives keyholder, one naming a sub token gives sub, any other non-empty value gives viewer, and an absent or empty one gives viewer |
| `RoleResolver.NoSignalsIsViewer` | weekly_tasks_module.js:78 | with no signal the role is viewer |
| `RoleResolver.ResolveRole` | weekly_tasks_module.js:48-79 | keyholder is granted only when some signal names it (a label containing "keyholder" or a keyholder token), and sub only when some signal names the sub |
| `RoleResolver.LabelBeatsQuery` | weekly_tasks_module.js:50-53 | label "Keyholder Mode" wins over `?role=sub` |
| `RoleResolver.PetHintIsSub` | weekly_tasks_module.js:60 | hint "pet" alone gives sub |
| `RoleResolver.UnknownQueryIsViewer` | weekly_tasks_module.js:65-69 | `?role=banana` gives viewer even when `UI_ROLE` is keyholder |
| `TimeKey.MondayOffset` | weekly_tasks_module.js:20-21 | the offset is below 7 and leads from Monday to today's weekday |
| `TimeKey.MondayOffsetUnique` | weekly_tasks_module.js:20-21 | no other offset under a week does so |
| `TimeKey.TodayColIndex` | weekly_tasks_module.js:34-37 | the column is -1 exactly at the weekend, otherwise 0..4 and equal to the Monday offset |
| `TimeKey.PrevDay` | weekly_tasks_module.js:22 | the day before a valid date is a valid date in the same or the previous year |
| `TimeKey.SubtractDays` | weekly_tasks_module.js:22 | subtracting days keeps the date valid and moves the year back by at most the number of days |
| `TimeKey.MondayOf` | weekly_tasks_module.js:17-22 | the Monday is a valid date with a non-negative year |
| `TimeKey.MondayPlusOffsetIsToday` | weekly_tasks_module.js:17-22 | adding the Monday offset to the Monday gives back today |
| `TimeKey.WeekKeyStable` | weekly_tasks_module.js:17-24 | each day of one week, Monday to Sunday, yields the same week key |
| `TimeKey.FormatYmd` | weekly_tasks_module.js:23-24 | the `YYYY-MM-DD` key splits at `-` into the year's digits and a zero-padded two-digit month and day, and read back with `split('-').map(Number)` gives year, month and day |
| `TimeKey.WeekKey` | weekly_tasks_module.js:17-24 | the week key splits into the Monday's year digits and a zero-padded two-digit month and day, and reads back as the year, month and day of the Monday on or before today |
| `TimeKey.WeekKeyIdentifiesMonday` | weekly_tasks_module.js:17-24 | two instants share a week key exactly when they share the Monday |
| `TimeKey.YearMonth` | weekly_tasks_module.js:226-227 | the calendar `ym` splits at `-` into the year's digits and a zero-padded two-digit month, and read back gives year and month |
| `RemoteState.ClassifyPatch` | weekly_tasks_module.js:92-96 | a patch succeeds exactly when the response is HTTP-ok, the body parses and says `ok: true`; otherwise the shown text is `Error: ` + the body's error or "Save failed (HTTP status)" |
| `RemoteState.RejectionMessage` | weekly_tasks_module.js:94 | the rejection message is never empty, and it is the body's error whenever the body carries a non-empty one |
| `RemoteState.RejectionMessageExplains` | weekly_tasks_module.js:94 | without an error in the body, the rejection message contains the HTTP status |
| `RemoteState.OkStatusIsNotEnough` | weekly_tasks_module.js:93 | HTTP 200 without `ok: true` in the body is a failure |
| `RemoteState.OkBodyIsNotEnough` | weekly_tasks_module.js:93 | `ok: true` in the body does not rescue a failed HTTP status |
| `TaskState.SetCell` | weekly_tasks_module.js:215 | the cell holds the new value, every other cell keeps its value, and cells added to a short row read as not done |
| `TaskState.ToggledWeek` | weekly_tasks_module.js:213-215 | the toggled week has the old tasks plus this one, and every other task's row unchanged |
| `TaskState.IsDone` | weekly_tasks_module.js:224 | a task with no row this week is not done |
| `TaskState.ToggleReadBack` | weekly_tasks_module.js:213-215 | after a toggle the cell reads as the new value and every other cell of every task reads as before |
| `TaskState.ToggleUndo` | weekly_tasks_module.js:213-215 | setting a cell back to what it read restores how every cell reads |
| `TaskState.ToggleMissingRow` | weekly_tasks_module.js:215 | a task with no row starts from five falses |
| `TaskState.ToggleWednesdayExample` | weekly_tasks_module.js:215 | checking column 2 of t1 in an empty week gives [false,false,true,false,false] |
| `TaskState.AllTasksDone` | weekly_tasks_module.js:224 | `every` holds exactly when each task's row is `true` at the column |
| `TaskState.AllDoneToday` | weekly_tasks_module.js:221-224 | the cascade fires exactly when the column is a weekday, the checklist is non-empty and every listed task is done in that column |
| `TaskState.EmptyChecklistNeverAllDone` | weekly_tasks_module.js:223 | an empty checklist is never all done |
| `TaskState.WeekendNeverAllDone` | weekly_tasks_module.js:221-222 | Saturday and Sunday are never all done |
| `TaskState.CheckingCompletesColumn` | weekly_tasks_module.js:221-224 | checking a cell completes the column exactly when every other task was done there |
| `TaskState.UncheckingBreaksColumn` | weekly_tasks_module.js:221-224 | unchecking a listed task's cell leaves the column incomplete |
| `TaskState.RemoveAt` | weekly_tasks_module.js:168 | `splice(idx,1)` removes exactly the element at `idx` and keeps the rest in order |
| `TaskState.Renamed` | weekly_tasks_module.js:174 | a rename sets one label and keeps every id and every other task |
| `TaskState.AddThenDeleteRestores` | weekly_tasks_module.js:168 | deleting the task just added gives the checklist back |
| `TaskState.Clean` | weekly_tasks_module.js:261 | the saved checklist is no longer than the live one |
| `TaskState.CleanLabelsTrimmed` | weekly_tasks_module.js:261 | every saved label is non-empty and trimmed |
| `TaskState.CleanOnlyFrom` | weekly_tasks_module.js:261 | every saved task is a live task with its id and its trimmed label |
| `TaskState.CleanKeeps` | weekly_tasks_module.js:261 | every task with a non-empty trimmed label is saved |
| `TaskState.CleanAppend` | weekly_tasks_module.js:261 | cleaning works task by task, so the order is kept |
| `TaskState.CleanIdempotent` | weekly_tasks_module.js:261 | saving a saved checklist changes nothing |
| `TaskState.CleanExample` | weekly_tasks_module.js:261 | `[{t1," Wash "},{t2,"   "}]` is saved as `[{t1,"Wash"}]` |
| `TaskState.Who` | weekly_tasks_module.js:210 | the `who` field is "sub" exactly for the sub, "keyholder" otherwise |
| `TaskState.TokenFor` | weekly_tasks_module.js:211 | the sub acts with the sub token, anyone else with the keyholder token |
| `TaskState.CalendarPatchFor` | weekly_tasks_module.js:226-228 | the calendar patch tags today's day number "done" under a month key made of the year's digits and the zero-padded two-digit month, which reads back as today's year and month |
| `TaskState.StartBanner` | weekly_tasks_module.js:190-198 | start-up raises an error banner exactly when a remote URL is set and the read failed; a thrown error is shown as it prints |
| `TaskState.StartBannerNamesStatus` | weekly_tasks_module.js:83 | a read refused by the server shows "GET failed" with the HTTP status |
| `TaskState.WeeklyTasks.constructor` | weekly_tasks_module.js:188-198 | the state is the fetched document's fields (missing ones empty) when a remote is set and the read succeeded, else empty; the start-up banner is `StartBanner` |
| `TaskState.WeeklyTasks.Toggle` | weekly_tasks_module.js:206-233 | the role is resolved from the signals at the click; a viewer gets "Choose a role" and nothing changes. Otherwise the whole copied week, with one cell set, is patched with the party's token. The table changes only when the patch succeeds, and then only at this week. A calendar patch `{ym, day, tags:["done"]}` follows only when today's column is all done. Its failure changes the banner but not the table. The checklist is untouched. |
| `TaskState.WeeklyTasks.AddTask` | weekly_tasks_module.js:249-256 | only the keyholder, resolved at the click, appends `{t<random>, "New Task"}`; anyone else gets "Keyholder mode required" and no change |
| `TaskState.WeeklyTasks.DeleteAt` | weekly_tasks_module.js:166-171 | only the keyholder removes exactly the task at `idx`; anyone else changes nothing |
| `TaskState.WeeklyTasks.Rename` | weekly_tasks_module.js:172-175 | only the keyholder sets the label of the task at `idx`; anyone else changes nothing |
| `TaskState.WeeklyTasks.Save` | weekly_tasks_module.js:259-268 | only the keyholder, resolved at the click, sends the cleaned checklist with the keyholder token, and it replaces the live checklist only when the patch succeeds; a failure leaves the checklist as edited |

## Left out

- Time-zone conversion (`Intl.DateTimeFormat`, `new Date()`): today's civil date and weekday are inputs. The code reads the clock separately at lines 212, 221 and 226; the model uses one captured instant.
- Years 0 to 99: `new Date(Y, M-1, D)` reads them as 1900 to 1999, so the model requires a year of 100 or later.
- `weekRangeLabelPDT`, `toLocaleDateString`: locale-dependent display text only.
- Rendering (`renderWeeklyTable`, `renderInlineEditor`, `flash`'s DOM and timer, editor show/hide): each handler's banner is returned as a value, and the start-up banner is the `startBanner` field.
- Network I/O (`fetch`, `fetchShared`, form encoding, `JSON.stringify`): each patch is returned as a value, and each response is an input.
- Random ids: the base-36 suffix from `Math.random` is a parameter. Id uniqueness is not guaranteed by the code and is not assumed.
- The 30-second rollover timer and the interleaving of asynchronous handlers: they are driven by timers and concurrency.
- Concurrent edits from two devices and the server's merge of patches are not modelled. Because a toggle patch carries the whole local copy of the week, a stale copy can overwrite the other party's check of a different task in the same week; the model states what is sent, not how the server combines it.
- `getCfg` and the page reads: their results are the `Cfg` and `Signals` inputs.
- `Text.Lower`: lower-cases ASCII letters only. JavaScript's `toLowerCase` also maps non-ASCII capitals, and a few of them (the Kelvin sign, the dotted capital I) lower-case to ASCII letters.
- `Text.TrimSpec`: the whitespace set is the ECMAScript WhiteSpace and LineTerminator characters, as a fixed list.
- Non-string `UI_ROLE` values and non-string `data.error` values (JavaScript would convert them with `String`): they are not modelled.
- Remote rows that hold non-boolean cells: they are not modelled. For rows too short for the column, `TaskState.SetCell` pads with `false` where JavaScript would leave holes. The holes read the same way but serialize as `null`.
- A fetched document of JSON `null` makes the code throw after it has replaced the state, which leaves the card unusable. The model treats it as a failed read (`FetchThrown`): the banner is shown and the state stays empty.
- A fetched document that is a JSON number, string or boolean: the code accepts it without a banner (the property writes at lines 193-194 are dropped outside strict mode) and renders an empty card. The model also treats it as a failed read, so it shows a banner the code does not.
- `TimeKey.PartValue`: `Number` is modelled on digit strings only (the empty string is 0). Whitespace and signs are not modelled; the keys never contain them.
