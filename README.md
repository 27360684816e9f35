# To-do widget: a Dafny model of its page state

This project models the state logic of a browser to-do widget (`script.js`).
The widget greets the user by name with a greeting that depends on the hour.
It keeps an ordered list of short tasks that can be added, completed and
deleted, and it persists the tasks, the name and a light/dark theme in the
page's key-value storage. It also rotates six quotes and opens and closes a
settings menu.

The DOM and `localStorage` are plain data here:

- `Widget.Page` is one object holding every variable and element property
  the page's handlers update. The task list is a `seq` of items. Storage is a
  `Storage` value with one typed slot per key (`userName`, `theme`, `tasks`).
  Each event handler is a method. Its contract states the whole new state as
  an update of the old one, and it keeps the invariant `Valid()`:
  - every span agrees with its item;
  - the count text is current;
  - the theme switch matches the page class;
  - the quote cursor and the quote shown match the number of updates so far.
- A rendered task is `Tasks.Task(original, shown, completed)`. `original` is
  the text the item's handlers captured when it was created. `shown` is what
  its span displays. A stored task is `Tasks.Record(text, completed)`, whose
  `text` may be `null` (`None`).
- The pure rules are functions in their own modules: trimming and number
  rendering (`Text`), the name fallback and the greeting (`Identity`), the
  theme choice (`Theme`) and the quote cursor (`Quotes`). The loops of
  `saveTasks` and `loadTasks` are the methods `Tasks.Serialize` and
  `Tasks.Rebuild`, proved equal to the functions `Tasks.SaveRecords` and
  `Tasks.LoadRecords`.
- The prompt's answer and the hour of the day are parameters. The user's
  typing assigns `Page.input`. A delete takes effect at once.
- A click on the page runs the clicked element's own handler and then the
  page-wide handler of script.js:229-232. So a click on a task span, a
  delete button or the add button is the handler method (`ToggleTask`,
  `DeleteTask`, `AddTask`) followed by `Click(Elsewhere)`, which closes the
  settings menu. Only the settings button stops the click from going
  further.

The model follows the code where it departs from the comments and from what
the widget was meant to do:

- When `saveTasks` finds a blank span, it stores the `data-original-text`
  attribute, and nothing ever sets that attribute. So a completed task is
  stored with `null` text. After a reload it comes back completed, and it
  shows nothing even after it is un-completed (`Tasks.RoundTripFlags`).
- Open items survive a save and a load exactly (`Tasks.RoundTripOpen`):
  those `addTask` makes, and also a task whose text an earlier reload lost
  and that was un-completed since. Completed items keep only their flag.
- `loadTasks` appends to the list and does not clear it first.
- A stored name or theme that is the empty string counts as absent.
- The count never uses a singular form: one task reads "1 tasks".

## Model

| member | source | states |
|---|---|---|
| Text.TrimSpec | script.js:116 | `trim` keeps the slice of the input between a whitespace prefix and a whitespace suffix, with no whitespace left at either end |
| Text.TrimBlank | script.js:116-117 | the trimmed text is empty exactly when every character of the input is whitespace |
| Text.TrimIdempotent | script.js:40-41 | trimming an already trimmed text changes nothing |
| Text.NatToString | script.js:199 | a count is rendered as decimal digits with no leading zero, and reading those digits back gives the count |
| Tasks.CountText | script.js:197-199 | the stats text is the decimal count, with no leading zero, followed by " tasks" |
| Tasks.CountTextOne | script.js:199 | one item reads "1 tasks": there is no singular form |
| Tasks.CreateTask | script.js:131-147 | a new item keeps the given text and flag; a completed one shows nothing, and an open one shows its text |
| Tasks.Toggled | script.js:149-155 | a span click flips only the flag, keeps the captured text, and leaves the span consistent with the new flag |
| Tasks.ToggleTwice | script.js:149-155 | toggling a consistent item twice restores it exactly |
| Tasks.RemoveAt | script.js:160-163 | deleting item i leaves one item fewer, the items before i unchanged and the items after i shifted down by one in the same order |
| Tasks.Saved | script.js:175-179 | a record keeps the item's flag; its text is the span text, or null exactly when the span is blank |
| Tasks.SaveRecords | script.js:172-180 | saving gives one record per item |
| Tasks.Serialize | script.js:172-180 | the push loop builds exactly the saved records, in list order |
| Tasks.LoadRecords | script.js:184-191 | loading gives one item per stored record |
| Tasks.Rebuild | script.js:184-191 | the load loop creates exactly one consistent item per record, in order |
| Tasks.SavedRecordsOf | script.js:172-181 | in a consistent list, record i has item i's flag, null text when the item is completed, and the item's captured text when it is open |
| Tasks.RoundTripOpen | script.js:172-194 | a consistent list of open items comes back unchanged from a save followed by a load: items as `addTask` creates them, and items with lost (null) text that were un-completed after a reload |
| Tasks.RoundTripFlags | script.js:172-194 | after a save and a load every flag survives, open items come back unchanged, and completed items come back with null text and a blank span that stays blank once un-completed |
| Tasks.SaveLoadSettles | script.js:172-194 | after one save and load, saving again stores the same records |
| Tasks.IntendedSaved | script.js:177 | the intended record stores the item's captured text whatever its span shows |
| Tasks.IntendedRoundTrip | script.js:177-194 | with the intended records, a save followed by a load restores every consistent list exactly |
| Tasks.CompletedTextLost | script.js:177 | as written, a completed "Buy milk" is saved with null text and does not load back as itself |
| Identity.ResolveName | script.js:39-49 | the name kept after the prompt is never empty |
| Identity.ResolveNameSpec | script.js:39-49 | a non-blank answer is kept trimmed; a cancelled, empty or blank answer gives "Friend"; the name has no whitespace at its ends |
| Identity.ResolvedNameSticks | script.js:26-36 | a stored resolved name is used on the next load without prompting, and entering it again keeps it unchanged |
| Identity.GreetingWordByHour | script.js:71-75 | the greeting is "Good morning" before hour 12, "Good afternoon" from 12 to 17, and "Good evening" from 18 on |
| Identity.GreetingChangesAtNoonAndSix | script.js:71-75 | the greeting is "Good morning" at hour 0, "Good afternoon" at 12 and "Good evening" at 23, and between consecutive hours it changes exactly at 12 and 18 |
| Identity.GreetingLineDeterminesName | script.js:77 | at a given hour two greeting lines are equal only for the same name, so the line shows the name unaltered |
| Identity.GreetingLineExample | script.js:71-77 | at hour 9 the name "Ava" is greeted as "Good morning, Ava!" |
| Theme.ModeOfSwitch | script.js:104 | the stored mode is "light" or "dark", and it is light exactly when the switch is checked |
| Theme.SavedTheme | script.js:109 | the theme applied at load is the stored value, or "dark" when none or an empty one is stored |
| Theme.SwitchSurvivesReload | script.js:103-110 | a mode stored by the switch is applied unchanged on the next load and sets the switch as it was |
| Quotes.Next | script.js:207 | advancing keeps the cursor below 6 and wraps to 0 exactly after the last quote |
| Quotes.CursorAfter | script.js:27 | the cursor after any number of updates stays in [0, 6) |
| Quotes.CursorAfterIsMod | script.js:205-207 | after k updates from page load the cursor is k mod 6 |
| Quotes.ShownByUpdate | script.js:205-212 | the k-th update shows quote (k - 1) mod 6 |
| Widget.Page.constructor | script.js:26-36 | page load prompts only when no name is stored and greets; it then applies the saved theme (lines 109-110), shows quote 0 (line 212) and appends the stored tasks (line 218), and `Valid()` holds |
| Widget.Page.AskForName | script.js:38-49 | the resolved name becomes the page's name and the stored name, and the greeting uses it; nothing else changes |
| Widget.Page.ChangeName | script.js:63-67 | changing the name has the same effect as asking for it afresh |
| Widget.Page.UpdateTopSection | script.js:70-88 | only the greeting text changes, and the count stays current |
| Widget.Page.ApplyTheme | script.js:93-101 | light mode and the switch are both on exactly for "light"; nothing else changes |
| Widget.Page.ThemeSwitchChanged | script.js:103-107 | the user flips the switch; its new mode is stored and applied, and the page class follows the switch |
| Widget.Page.AddTask | script.js:115-124 | blank input changes nothing; otherwise exactly one fresh item with the trimmed text is appended, earlier items are unchanged, the input is cleared, the list is saved and the count refreshed |
| Widget.Page.ToggleTask | script.js:149-158 | only item i changes: its flag flips and its span blanks or shows its text; the list is saved |
| Widget.Page.DeleteTask | script.js:160-166 | item i is removed with the order of the others kept, the list is saved and the count drops by one |
| Widget.Page.SaveTasks | script.js:172-182 | only the stored tasks change, to the records of the current items |
| Widget.Page.LoadTasks | script.js:184-194 | stored records are appended as items and the count refreshed; with none stored nothing changes |
| Widget.Page.RefreshTaskStats | script.js:197-200 | the count text shows the number of items, completed or not |
| Widget.Page.UpdateQuote | script.js:205-209 | the quote under the cursor is shown, the cursor advances modulo 6, and the invariant ties both to the number of updates |
| Widget.Page.Click | script.js:223-233 | a settings-button click toggles the menu, a click inside the menu leaves it as it is, and any other click closes it |

## Left out

- DOM element creation, class names and listener registration: events are method calls on `Widget.Page`.
- The `transitionend` wait before removal: `DeleteTask` removes the item at once. Clicking delete twice before the transition ends registers two listeners; the model cannot express this, because an item is named by its position.
- The quote timer (`setInterval`, every 60000 ms) and the welcome banner with its 3000 ms removal: timers are not modelled. The timer is the repeated calls to `UpdateQuote`. The banner text is not part of the state.
- `prompt`, the clock and the date: the prompt's result (`None` for cancel) and the hour are parameters. The locale date line (`toLocaleDateString('en-IN', …)`) is not modelled.
- `localStorage` I/O and JSON text: storage holds typed values. A stored task list that is not valid JSON makes `JSON.parse` throw at script.js:187, and nothing catches it. Valid JSON that is not an array (`"null"`, `"{}"`, `"0"`) throws at script.js:188 instead, where `forEach` is missing, and an array with a `null` element throws at line 189, on `task.text`, once the elements before it are appended. An array of other values (`[1]`, `[{}]`) loads without error: its text and flag are `undefined`, so each element becomes an open item with a blank span (line 131's default). Each of the throws ends the rest of the load callback: the quote timer (line 215) is already running, but no stored task from the throw on is shown, the count is not refreshed (line 192), and the settings handlers (lines 223-233) are never registered. The model cannot express such text.
- `console.log` in `updateQuote`.
- The initial "Hello" greeting is overwritten on every path, so it is not modelled. The page's initial input value, settings class and quote text are taken to be empty, inactive and empty.

## Findings

| source | as written | input that shows it | evidently intended | confidence | as-written member | corrected member |
|---|---|---|---|---|---|---|
| script.js:177 | a blank span makes `saveTasks` store `data-original-text`, which is never set, so the text is `null` | complete "Buy milk", then reload: the task comes back with no text, and un-completing it shows nothing | store the item's own text, as the comment on that line says | high; not executed | Tasks.CompletedTextLost | Tasks.IntendedRoundTrip |

`Widget.Page` keeps the code's behaviour (`Tasks.SaveRecords`). The
corrected record (`Tasks.IntendedSaved`, `Tasks.IntendedSaveRecords`) is
defined beside it, with its full round trip proved.
