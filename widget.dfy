/**
 * The page as one object: every handler of the `DOMContentLoaded` callback
 * is a method, every variable or element property it updates is a field,
 * and `localStorage` is the `store` field.
 */
module Widget {
  import opened Wrappers
  import Text
  import Tasks
  import Identity
  import Theme
  import Quotes

  /** The page's `localStorage`: one typed slot per key (`userName`, `theme`, `tasks`). */
  datatype Storage = Storage(userName: Option<string>, theme: Option<string>, tasks: Option<seq<Tasks.Record>>)

  /** Where a click lands, as far as the two settings handlers can tell. */
  datatype ClickTarget = SettingsButton | InsideSettingsMenu | Elsewhere

  /** Everything the page holds, as one value, so that a handler's effect can be stated as an update of it. */
  datatype PageState = PageState(
    store: Storage,
    userName: string,
    greetingText: string,
    lightMode: bool,
    switchChecked: bool,
    input: string,
    items: seq<Tasks.Task>,
    statsText: string,
    quoteIndex: nat,
    quoteText: string,
    quoteUpdates: nat,
    settingsActive: bool)

  class Page {
    var store: Storage
    /** The `userName` variable of the page script. */
    var userName: string
    /** `greetingText.textContent`. */
    var greetingText: string
    /** Whether `document.body` carries the `light-mode` class. */
    var lightMode: bool
    /** `themeSwitch.checked`. */
    var switchChecked: bool
    /** `taskInput.value`; the user's typing assigns it directly. */
    var input: string
    /** The `<li>` children of the task list, in document order. */
    var items: seq<Tasks.Task>
    /** `taskStats.textContent`. */
    var statsText: string
    /** `currentQuoteIndex`. */
    var quoteIndex: nat
    /** `quoteText.textContent`. */
    var quoteText: string
    /** How many times `updateQuote` has run since page load. */
    ghost var quoteUpdates: nat
    /** Whether the settings menu carries the `active` class. */
    var settingsActive: bool

    ghost function State(): PageState
      reads this
    {
      PageState(store, userName, greetingText, lightMode, switchChecked, input, items,
                statsText, quoteIndex, quoteText, quoteUpdates, settingsActive)
    }

    /**
     * What holds between handlers: every span agrees with its item, the count
     * is current, the switch matches the page class, and the quote cursor
     * and the quote shown are those of the number of updates so far.
     */
    ghost predicate Valid()
      reads this
    {
      && Tasks.AllWellFormed(items)
      && statsText == Tasks.CountText(|items|)
      && lightMode == switchChecked
      && quoteIndex == Quotes.CursorAfter(quoteUpdates)
      && (quoteUpdates > 0 ==> quoteText == Quotes.Quotes[Quotes.CursorAfter(quoteUpdates - 1)])
    }

    /**
     * Page load with `saved` in storage: resolve the name (prompting, with
     * `answer` as the prompt's result, only when none is stored), greet for
     * `hour`, apply the saved theme, show the first quote, load the tasks.
     * The input starts empty and the settings menu closed.
     */
    constructor (saved: Storage, answer: Option<string>, hour: int)
      ensures Valid()
      ensures userName == if Identity.NeedsPrompt(saved.userName) then Identity.ResolveName(answer)
                          else saved.userName.value
      ensures store == saved.(userName := Some(userName))
      ensures greetingText == Identity.GreetingLine(hour, userName)
      ensures lightMode == Theme.IsLight(Theme.SavedTheme(saved.theme))
      ensures items == if saved.tasks.Some? then Tasks.LoadRecords(saved.tasks.value) else []
      ensures quoteUpdates == 1 && quoteIndex == 1 && quoteText == Quotes.Quotes[0]
      ensures input == "" && !settingsActive
    {
      store := saved;
      userName := if saved.userName.Some? then saved.userName.value else "";
      greetingText := "";
      lightMode, switchChecked := false, false;
      input := "";
      items := [];
      statsText := Tasks.CountText(0);
      quoteIndex, quoteText, quoteUpdates := 0, "", 0;
      settingsActive := false;
      new;
      if Identity.NeedsPrompt(saved.userName) {
        AskForName(answer, hour);
      } else {
        UpdateTopSection(userName, hour);
      }
      ApplyTheme(Theme.SavedTheme(store.theme));
      UpdateQuote();
      LoadTasks();
    }

    /** `askForName`: keep the resolved name, store it, and greet with it. */
    method AskForName(answer: Option<string>, hour: int)
      requires Valid()
      modifies this
      ensures Valid()
      ensures State() == old(State()).(
                userName := Identity.ResolveName(answer),
                store := old(store).(userName := Some(Identity.ResolveName(answer))),
                greetingText := Identity.GreetingLine(hour, Identity.ResolveName(answer)))
    {
      userName := Identity.ResolveName(answer);
      store := store.(userName := Some(userName));
      UpdateTopSection(userName, hour);
    }

    /** The change-name button: forget the stored name, then prompt again. */
    method ChangeName(answer: Option<string>, hour: int)
      requires Valid()
      modifies this
      ensures Valid()
      ensures State() == old(State()).(
                userName := Identity.ResolveName(answer),
                store := old(store).(userName := Some(Identity.ResolveName(answer))),
                greetingText := Identity.GreetingLine(hour, Identity.ResolveName(answer)))
    {
      store := store.(userName := None);
      AskForName(answer, hour);
    }

    /** `updateTopSection(name)` at local hour `hour`: greeting text, then the count. */
    method UpdateTopSection(name: string, hour: int)
      requires Valid()
      modifies this
      ensures Valid()
      ensures State() == old(State()).(greetingText := Identity.GreetingLine(hour, name))
    {
      greetingText := Identity.GreetingLine(hour, name);
      RefreshTaskStats();
    }

    /** `applyTheme(theme)`: light mode and the switch both follow whether `theme` is "light". */
    method ApplyTheme(theme: string)
      modifies this
      ensures lightMode == switchChecked == Theme.IsLight(theme)
      ensures State() == old(State()).(lightMode := Theme.IsLight(theme), switchChecked := Theme.IsLight(theme))
    {
      lightMode := Theme.IsLight(theme);
      switchChecked := lightMode;
    }

    /**
     * The user flips the switch, which fires its `change` handler: store the
     * switch's new mode and apply it.
     */
    method ThemeSwitchChanged()
      requires Valid()
      modifies this
      ensures Valid()
      ensures switchChecked == !old(switchChecked) && lightMode == switchChecked
      ensures State() == old(State()).(
                store := old(store).(theme := Some(Theme.ModeOfSwitch(!old(switchChecked)))),
                lightMode := !old(switchChecked), switchChecked := !old(switchChecked))
    {
      var mode := Theme.ModeOfSwitch(!switchChecked);
      store := store.(theme := Some(mode));
      ApplyTheme(mode);
    }

    /**
     * `addTask`: a blank input changes nothing; otherwise the trimmed text is
     * appended as a new, not completed item, the input is cleared, the list
     * is saved and the count refreshed.
     */
    method AddTask()
      requires Valid()
      modifies this
      ensures Valid()
      ensures Text.AllWhitespace(old(input)) ==> State() == old(State())
      ensures !Text.AllWhitespace(old(input)) ==>
                var t := Text.Trim(old(input));
                && items == old(items) + [Tasks.Task(Some(t), t, false)]
                && Tasks.Fresh(items[|items| - 1])
                && State() == old(State()).(
                     items := items, input := "",
                     store := old(store).(tasks := Some(Tasks.SaveRecords(items))),
                     statsText := Tasks.CountText(|old(items)| + 1))
    {
      Text.TrimBlank(input);
      var taskText := Text.Trim(input);
      if taskText != "" {
        var newTask := Tasks.CreateTask(Some(taskText), false);
        items := items + [newTask];
        input := "";
        SaveTasks();
        RefreshTaskStats();
      }
    }

    /**
     * A click on the span of item `i`: flip its flag and blank or restore
     * its text, leave every other item alone, save and refresh the count.
     */
    method ToggleTask(i: nat)
      requires Valid() && i < |items|
      modifies this
      ensures Valid()
      ensures items == old(items)[i := Tasks.Toggled(old(items)[i])]
      ensures items[i].completed == !old(items)[i].completed
      ensures items[i].shown == if items[i].completed then "" else items[i].original.GetOr("")
      ensures State() == old(State()).(items := items, store := old(store).(tasks := Some(Tasks.SaveRecords(items))))
    {
      items := items[i := Tasks.Toggled(items[i])];
      SaveTasks();
      RefreshTaskStats();
    }

    /** A click on the delete button of item `i`, once its exit transition has ended. */
    method DeleteTask(i: nat)
      requires Valid() && i < |items|
      modifies this
      ensures Valid()
      ensures items == Tasks.RemoveAt(old(items), i)
      ensures State() == old(State()).(
                items := items,
                store := old(store).(tasks := Some(Tasks.SaveRecords(items))),
                statsText := Tasks.CountText(|old(items)| - 1))
    {
      items := Tasks.RemoveAt(items, i);
      SaveTasks();
      RefreshTaskStats();
    }

    /** `saveTasks`: store one record per item; nothing else changes. */
    method SaveTasks()
      modifies this
      ensures State() == old(State()).(store := old(store).(tasks := Some(Tasks.SaveRecords(items))))
    {
      var records := Tasks.Serialize(items);
      store := store.(tasks := Some(records));
    }

    /**
     * `loadTasks`: when tasks are stored, append one item per record and
     * refresh the count; when none are, do nothing.
     */
    method LoadTasks()
      requires Valid()
      modifies this
      ensures Valid()
      ensures old(store).tasks.None? ==> State() == old(State())
      ensures old(store).tasks.Some? ==>
                State() == old(State()).(
                  items := old(items) + Tasks.LoadRecords(old(store).tasks.value),
                  statsText := Tasks.CountText(|items|))
    {
      if store.tasks.Some? {
        var loaded := Tasks.Rebuild(store.tasks.value);
        items := items + loaded;
        RefreshTaskStats();
      }
    }

    /** `refreshTaskStats`: show the number of items, completed or not. */
    method RefreshTaskStats()
      modifies this
      ensures State() == old(State()).(statsText := Tasks.CountText(|items|))
    {
      statsText := Tasks.CountText(|items|);
    }

    /** `updateQuote`: show the quote under the cursor, then advance the cursor modulo 6. */
    method UpdateQuote()
      requires Valid()
      modifies this
      ensures Valid()
      ensures quoteText == Quotes.Quotes[old(quoteIndex)]
      ensures quoteIndex == Quotes.Next(old(quoteIndex)) && quoteUpdates == old(quoteUpdates) + 1
      ensures State() == old(State()).(quoteText := quoteText, quoteIndex := quoteIndex, quoteUpdates := quoteUpdates)
    {
      quoteText := Quotes.Quotes[quoteIndex];
      quoteIndex := Quotes.Next(quoteIndex);
      quoteUpdates := quoteUpdates + 1;
    }

    /**
     * A click on the page: on the settings button it toggles the menu and
     * goes no further; inside the menu it changes nothing; anywhere else it
     * closes the menu.
     */
    method Click(target: ClickTarget)
      requires Valid()
      modifies this
      ensures Valid()
      ensures target == SettingsButton ==> settingsActive == !old(settingsActive)
      ensures target == InsideSettingsMenu ==> settingsActive == old(settingsActive)
      ensures target == Elsewhere ==> !settingsActive
      ensures State() == old(State()).(settingsActive := settingsActive)
    {
      match target
      case SettingsButton =>
        settingsActive := !settingsActive;
      case InsideSettingsMenu =>
      case Elsewhere =>
        settingsActive := false;
    }
  }
}
