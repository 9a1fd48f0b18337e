# To-do list and work/break timer, modelled in Dafny

`Script.js` drives a small browser productivity page. It has two parts, and both keep their state
in the page and in the browser's local storage:

- **The task list.** The `<ul id="taskList">` holds one `<li>` per task. A task's priority
  (low/medium/high), category (work/study/personal) and completion are CSS class names on its `<li>`.
  The text sits in a `<span>` and the deadline in `data-deadline`. `saveTasks` decodes every `<li>`
  into a record and stores the array under the key `tasks`. `loadTasks` renders stored records back
  into `<li>`s. `addTask`, `toggleTaskComplete`, `editTask`, `removeTask`, `filterTasks`,
  `updateTaskProgress` and `importTasks` work on these two pieces of state.
- **The timer.** Seven global variables (`minutes`, `seconds`, `isRunning`, `isBreak`, `workTime`,
  `breakTime`, `completedSessions`), two number inputs for the phase lengths, and three storage keys.
  These change through `toggleTimer`, `updateTimer` (one tick), `resetTimer`, `saveSettings`,
  `loadTimerSettings` and `validateTimerInputs`.

## Files

- `wrappers.dfy` — module `Wrappers`: `Option`, the value of a storage key that may be absent.
- `js_string.dfy` — module `JsString`: `String.prototype.trim`, with the whitespace set of ECMA-262.
- `tasks.dfy` — module `Tasks`. The values are `Item` (one `<li>`: text, deadline, class set,
  hidden flag) and `Record` (one stored array element). `Save`, `Render`, `Encode`, `RenderAll`,
  `CompletedCount` and `Progress` are the pure parts of the handlers. The lemmas cover the
  encode/decode round trip, progress rounding, and what each list operation does to the stored
  array. The class `TaskList` holds `items` (the children of the `<ul>`), `stored` (the `tasks` key)
  and `progress` (the shown percentage), with one method per handler.
- `pomodoro.dfy` — module `Pomodoro`. `Clock` is the seven timer variables. `Step`, `Toggle` and
  `Reset` say what `updateTimer`, `toggleTimer` and `resetTimer` do to them. The lemmas go from one
  tick to a whole countdown, one work-and-break cycle, and many cycles. The class `Timer` holds the
  variables, the inputs and the storage keys. Each of its methods is proved to follow the matching
  function.

Each class method's `ensures` gives the whole new state in terms of the old one: the list after
the call, what is stored, what is shown. Beside each operation, a lemma states the property it
keeps. Two client methods, `Tasks.BuyMilk` and `Pomodoro.OneMinutePhases`, use only the class
contracts to derive two concrete scenarios. In the first, adding "Buy milk" and completing it shows
100%. In the second, one-minute phases switch to a one-minute break after 61 ticks and leave the
timer stopped.

### Behaviour one might expect but the code does not have (the model follows the code)

- **Minute accumulators.** One might expect `workTime` to sum the work minutes and `breakTime`
  the break minutes. At a WORK→BREAK switch the code sets `minutes` to the break length and
  then adds `minutes` to `workTime`. At BREAK→WORK it adds the new work length to `breakTime`
  (Script.js:240-241, 245-249). So `workTime` sums break lengths and `breakTime` sums work lengths.
  `Pomodoro.Step` and the lemmas state this as written.
- **Failed imports.** A file that is not JSON might be expected to produce a reported,
  recoverable error. The code lets `JSON.parse` throw inside the reader callback (Script.js:179). Nothing
  has been written by then, so nothing changes and nothing is reported. `Tasks.TaskList.ImportTasks`
  takes `NotJson` and leaves every field as it was.
- **Progress at 100 %.** With exact rounding, 199 completed tasks out of 200 already show 100.
  So "100 % exactly when every task is completed" holds only below 200 tasks
  (`Tasks.ProgressFullSmall`, `Tasks.OneOpenTaskRoundsToFull`).
- **Load-then-save.** A stored record whose priority or category is not a known name is saved back
  normalised (`Tasks.UnknownPriorityDefaultsToLow`). A foreign value that happens to be another
  known class name moves into the other field. For example, priority "study" with an unknown
  category is saved back as priority "low", category "study".

## Model

| member | source | states |
|---|---|---|
| `JsString.TrimStart` | Script.js:60 | the result is a suffix of the text, everything removed before it is whitespace, and it does not start with whitespace |
| `JsString.TrimEnd` | Script.js:60 | the result is a prefix, everything removed after it is whitespace, and it does not end with whitespace |
| `JsString.TrimEmpty` | Script.js:60-65 | the trimmed text is empty (the "Task cannot be empty!" case) exactly when every character is whitespace |
| `JsString.TrimIsSlice` | Script.js:60 | `trim` keeps one contiguous slice that neither starts nor ends with whitespace, and drops only whitespace on both sides |
| `JsString.TrimIdempotent` | Script.js:60 | trimming an already trimmed text changes nothing |
| `JsString.Trim` | Script.js:60 | `String.prototype.trim`; its meaning is carried by `TrimIsSlice`, `TrimEmpty` and `TrimIdempotent` |
| `Tasks.Save` | Script.js:110-115 | the record decoded from any `<li>` has a known priority and a known category |
| `Tasks.Encode` | Script.js:110-115 | the array `saveTasks` stores, one `Save` record per child; its meaning is carried by `EncodeRenderAll`, `EncodeAppend`, `EncodeRemoveAt` and `EncodeToggleAt` |
| `Tasks.Render` | Script.js:121-126 | one `<li>` built by `loadTasks`; `SaveRender` shows it is undone by `Save` for valid records |
| `Tasks.RenderAll` | Script.js:121-135 | the children `loadTasks` appends, one per stored record; `EncodeRenderAll` and `EncodeRenderAllKeeps` relate it to `Encode` |
| `Tasks.SaveRender` | Script.js:109-137 | a record with a known priority and category, rendered by `loadTasks` and decoded by `saveTasks`, comes back unchanged |
| `Tasks.EncodeRenderAll` | Script.js:109-137 | for an array of valid records, `saveTasks` after `loadTasks` stores exactly that array |
| `Tasks.EncodeRenderAllKeeps` | Script.js:109-137 | for any stored array, load-then-save keeps length, texts and deadlines, and keeps completion unless a field is literally "completed"; every saved record is valid |
| `Tasks.UnknownPriorityDefaultsToLow` | Script.js:112 | a priority that is no class name the decoder tests is saved back as 'low', with the other fields unchanged |
| `Tasks.UnknownCategoryDefaultsToPersonal` | Script.js:113 | a category that is no class name the decoder tests is saved back as 'personal', with the other fields unchanged |
| `Tasks.CompletedCount` | Script.js:152 | the number of completed children never exceeds the number of children |
| `Tasks.CountAll` | Script.js:152 | every child is counted exactly when every child carries the 'completed' class |
| `Tasks.RoundedPercent` | Script.js:153 | (200c + n) / (2n) is 100c/n rounded to the nearest integer with halves up, and lies in 0..100 |
| `Tasks.RoundedPercentFull` | Script.js:153 | the rounded percentage is 100 exactly when 200c >= 199n |
| `Tasks.RoundedPercentZero` | Script.js:153 | the rounded percentage is 0 exactly when 200c < n |
| `Tasks.Progress` | Script.js:150-156 | the shown percentage is always within 0..100 (0 for an empty list, no division by zero) |
| `Tasks.ProgressFull` | Script.js:150-156 | for a non-empty list, progress is 100 exactly when 200 * completed >= 199 * total |
| `Tasks.AllCompletedIsFull` | Script.js:150-156 | a non-empty, fully completed list shows 100 |
| `Tasks.ProgressFullSmall` | Script.js:150-156 | below 200 tasks, progress is 100 exactly when every task is completed |
| `Tasks.OneOpenTaskRoundsToFull` | Script.js:150-156 | from 200 tasks on, a single open task still shows 100 |
| `Tasks.ProgressZero` | Script.js:150-156 | progress is 0 exactly for an empty list or when under half a percent is completed |
| `Tasks.NewItem` | Script.js:67-69 | the `<li>` `addTask` creates; `SaveNewItem` and `AddKeepsCount` state what is saved and counted |
| `Tasks.SaveNewItem` | Script.js:59-79 | an added task is saved with the selected priority and category and `completed == false`, and is not counted as completed |
| `Tasks.EncodeAppend` | Script.js:77-79 | appending a child appends its record and leaves earlier records unchanged |
| `Tasks.RemoveAt` | Script.js:99-104 | removing entry i keeps the entries before i and shifts the entries after it down by one |
| `Tasks.RemoveAppended` | Script.js:59-107 | removing the entry just appended restores the list (delete undoes add) |
| `Tasks.EncodeRemoveAt` | Script.js:102-107 | removing child i removes exactly record i from what is saved |
| `Tasks.CountRemoveAt` | Script.js:102-107 | removing child i lowers the completed count by one exactly when that child was completed |
| `Tasks.Toggled` | Script.js:87 | toggling flips whether the item is completed and keeps every other class, the text, the deadline and the visibility |
| `Tasks.ToggleAt` | Script.js:86-87 | only entry i changes, and it becomes the toggled item |
| `Tasks.EncodeToggleAt` | Script.js:85-90 | toggling child i flips record i's `completed` and changes nothing else in the saved array |
| `Tasks.ToggleTwice` | Script.js:85-87 | toggling the same child twice restores the list |
| `Tasks.CountToggleAt` | Script.js:85-90 | toggling child i moves the completed count by exactly one, in the direction of the flip |
| `Tasks.Shown` | Script.js:142 | the filter condition of `filterTasks`; `FilterIsView` states its use |
| `Tasks.Filtered` | Script.js:141-147 | the list after `filterTasks`; `FilterIsView` states that only visibility changes |
| `Tasks.FilterIsView` | Script.js:139-148 | filtering hides exactly the non-matching children, and changes neither what is saved nor the completed count nor the progress |
| `Tasks.EditThenReAdd` | Script.js:59-100 | editing any task whose text is not all whitespace and re-submitting it puts it at the end of the saved array with its text trimmed, the same deadline, the currently selected priority and category, and completion cleared; the other records keep their order |
| `Tasks.EditTrimmedThenReAdd` | Script.js:59-100 | a task whose text is already trimmed (one `addTask` created) comes back with exactly the same text |
| `Tasks.AddKeepsCount` | Script.js:67-79 | appending a new task leaves the completed count unchanged |
| `Tasks.CountConcat` | Script.js:152 | the completed count of two lists put together is the sum of their counts |
| `Tasks.TaskList.constructor` | Script.js:1-2 | a page before `loadTasks`: no children, and whatever the browser has stored |
| `Tasks.TaskList.AddTask` | Script.js:59-83 | empty-after-trim text changes nothing; otherwise exactly one open task with the trimmed text is appended, it is saved, and the progress is recomputed |
| `Tasks.TaskList.ToggleTaskComplete` | Script.js:85-90 | only child i is toggled, the list is saved and the progress recomputed |
| `Tasks.TaskList.EditTask` | Script.js:92-100 | returns child i's text and deadline and removes it from the list; the stored array and the shown progress stay as they were |
| `Tasks.TaskList.RemoveTask` | Script.js:102-107 | only child i is removed; the stored array loses exactly record i and the progress is recomputed |
| `Tasks.TaskList.SaveTasks` | Script.js:109-117 | the stored array becomes the encoding of the current children |
| `Tasks.TaskList.LoadTasks` | Script.js:119-137 | one rendered child per stored record is appended after the existing children; the progress is recomputed |
| `Tasks.TaskList.FilterTasks` | Script.js:139-148 | every child's visibility is set from the filter; nothing else changes |
| `Tasks.TaskList.UpdateTaskProgress` | Script.js:150-156 | the shown percentage becomes the progress of the current children |
| `Tasks.TaskList.ImportTasks` | Script.js:173-185 | a parsed file replaces the stored array and the rendered list; for valid records list and store then agree; no file or unparsable text changes nothing |
| `Pomodoro.MinutesOr` | Script.js:240-245 | `parseInt(v) \|\| fallback` is the entered number when it is not 0, and the fallback for an empty field or 0; the result is never 0 and is positive for a validated field |
| `Pomodoro.SavedSessions` | Script.js:206 | the session count read at page load is the stored number, or 0 when the key is absent |
| `Pomodoro.Clamped` | Script.js:216-219 | validation leaves a non-negative or empty field as it is and raises a negative one to 0 |
| `Pomodoro.Loaded` | Script.js:289-292 | a loaded input holds the stored number, or the default when the key is absent or empty |
| `Pomodoro.Step` | Script.js:233-263 | `updateTimer`; its meaning is carried by `TickCountsDown`, `TickSwitchesPhase`, `TickCountsSessions` and `TickSound` |
| `Pomodoro.Toggle` | Script.js:221-230 | `toggleTimer`; `ToggleOnlyFlipsRunning` states that only `isRunning` flips |
| `Pomodoro.Reset` | Script.js:272-281 | `resetTimer`; `ResetIsFreshWork` states the fresh stopped work phase |
| `Pomodoro.TickCountsDown` | Script.js:257-261 | a tick away from 0:00 lowers `60*minutes+seconds` by exactly one, keeps seconds in 0..59 and changes nothing else |
| `Pomodoro.TickSwitchesPhase` | Script.js:234-255 | a tick at 0:00 flips the phase, sets seconds to 0 and stops the timer; the new minutes (break length or 5, work length or 25) go to `workTime` or `breakTime`, and a finished break counts one session |
| `Pomodoro.TickCountsSessions` | Script.js:233-263 | `completedSessions` grows by one when a break runs out and changes on no other tick |
| `Pomodoro.TickSound` | Script.js:233-263 | with validated inputs a tick keeps seconds in 0..59 and minutes non-negative |
| `Pomodoro.ToggleOnlyFlipsRunning` | Script.js:221-230 | start/pause flips `isRunning` only, so pausing and restarting never changes the remaining time or the phase |
| `Pomodoro.ResetIsFreshWork` | Script.js:272-281 | reset gives a stopped work phase at (work length or 25):00 with counters kept, and is idempotent |
| `Pomodoro.Countdown` | Script.js:233-263 | n ticks, up to the remaining time, lower it by n seconds without a phase switch, a stop or a counter change |
| `Pomodoro.PhaseRunsOut` | Script.js:233-263 | a started phase ends after its remaining seconds plus one tick, with the timer stopped at the start of the other phase |
| `Pomodoro.OneCycle` | Script.js:221-263 | from a reset timer, start, run out, start, run out: one switch to a stopped break, then back to the same stopped work phase with one more session |
| `Pomodoro.ManyCycles` | Script.js:233-253 | k full cycles add exactly k sessions and k phase lengths to each accumulator |
| `Pomodoro.Timer.constructor` | Script.js:188-206 | page load: initial variables, sessions read back from storage, inputs loaded, timer reset |
| `Pomodoro.Timer.LoadTimerSettings` | Script.js:289-292 | both inputs are filled from storage with defaults 25 and 5; the timer variables are untouched |
| `Pomodoro.Timer.ValidateTimerInputs` | Script.js:216-219 | both inputs are clamped at 0 and nothing else changes |
| `Pomodoro.Timer.EditDurations` | Script.js:209-210 | a typed value passes through `validateTimerInputs` before anything else can read it |
| `Pomodoro.Timer.ToggleTimer` | Script.js:221-230 | only `isRunning` flips |
| `Pomodoro.Timer.Tick` | Script.js:233-263 | the variables move as `Step` says; the session counter is saved when a break ends, and a reload would read it back |
| `Pomodoro.Timer.ResetTimer` | Script.js:272-281 | a stopped work phase at (work length or 25):00; counters, inputs and storage unchanged |
| `Pomodoro.Timer.SaveSettings` | Script.js:283-287 | both inputs are stored, then the timer is reset |

## Left out

- Rendering: `innerHTML` templates, button labels, `toLocaleString` deadlines, the progress text
  and the timer display. A task text is taken to come back verbatim from its `<span>`; HTML
  markup in a text is not modelled.
- The theme and dark-mode switcher, the help pop-ups and notifications. They do not touch the
  modelled state.
- Export (`Blob`, object URL, anchor click) is browser I/O. The array it offers for download is
  `stored`.
- `setInterval`/`clearInterval` and the `FileReader` callback. A tick is a call of
  `Pomodoro.Timer.Tick` while the timer runs, and an import is a call with the file already read.
- JSON text. An import receives `NoFile`, `NotJson` or an array of parsed records. A JSON value
  that is not an array, records with missing fields, and a non-boolean `completed` are not modelled.
- `classList.add` throws on an empty class name or one with whitespace. The model takes every
  stored priority and category to be a usable class name.
- Tasks are addressed by their position in the list (the button's `<li>`). Methods require the
  position to exist, because a button can only be clicked on a rendered child.
- The duplicate listener registrations for export and import (Script.js:56-57, 159-160).
- The progress-bar width (Script.js:267-269). It is floating point, and it divides by zero when a
  length is 0.
- Fractional or exponent notation in the duration inputs (`parseInt("2.5")` is 2). The inputs hold
  whole numbers or nothing.
- JavaScript numbers are doubles. The counters are unbounded integers here, so precision loss past
  2^53 is not modelled.
- Tasks.RoundedPercent: rounds the exact quotient 100c/n. `Math.round((c / n) * 100)` works in
  IEEE doubles and can land just below a half. For 23 of 40 tasks, (23 / 40) * 100 is
  57.49999999999999 in doubles, so the page shows 57 where the exact 57.5 rounds to 58.
- Pomodoro.Timer.constructor: requires the stored phase lengths to be empty or non-negative. Only
  `saveSettings` writes them, and it always stores validated inputs; values put into storage by
  other means are not modelled.
