/** Uses of the page that follow only from the handlers' contracts. */
module Scenarios {
  import opened Wrappers
  import Text
  import Tasks
  import Identity
  import Quotes
  import Widget

  /** First visit in the morning: the prompt is cancelled, so the page greets "Friend". */
  method FirstVisitCancelled()
  {
    var p := new Widget.Page(Widget.Storage(None, None, None), None, 9);
    assert p.userName == "Friend" && p.store.userName == Some("Friend");
    assert p.greetingText == Identity.GreetingLine(9, "Friend");
    assert !p.lightMode && p.quoteText == Quotes.Quotes[0] && |p.items| == 0;
  }

  /** Two non-blank entries give two fresh items and the count "2 tasks". */
  method AddTwo(p: Widget.Page, a: string, b: string)
    requires p.Valid() && p.items == []
    requires !Text.AllWhitespace(a) && !Text.AllWhitespace(b)
    modifies p
  {
    p.input := a;
    p.AddTask();
    assert |p.items| == 1 && Tasks.Fresh(p.items[0]);
    p.input := b;
    p.AddTask();
    assert |p.items| == 2 && p.statsText == Tasks.CountText(2);
    assert Tasks.Fresh(p.items[0]) && Tasks.Fresh(p.items[1]);
  }

  /**
   * Completing the first of two fresh items keeps the count at 2; deleting
   * the second leaves "1 tasks" and stores a single record with `null` text.
   */
  method CompleteThenDelete(p: Widget.Page)
    requires p.Valid() && |p.items| == 2
    requires Tasks.Fresh(p.items[0]) && Tasks.Fresh(p.items[1])
    modifies p
  {
    p.ToggleTask(0);
    assert p.items[0].completed && p.items[0].shown == "";
    assert p.statsText == Tasks.CountText(2);
    p.DeleteTask(1);
    assert |p.items| == 1 && p.items[0].completed;
    assert p.statsText == Tasks.CountText(1);
    assert p.store.tasks == Some(Tasks.SaveRecords(p.items));
    var rs := Tasks.SaveRecords(p.items);
    assert rs[0] == Tasks.Record(None, true);
    assert rs == [rs[0]];
  }

  /** Reloading from what was saved for fresh items shows exactly those items. */
  method ReloadFresh(saved: Widget.Storage, items: seq<Tasks.Task>)
    requires saved.tasks == Some(Tasks.SaveRecords(items))
    requires forall i :: 0 <= i < |items| ==> Tasks.Fresh(items[i])
  {
    var q := new Widget.Page(saved, None, 20);
    Tasks.RoundTripOpen(items);
    assert q.items == items;
  }

  /** Reloading a stored completed task keeps its flag; its text was already lost. */
  method ReloadCompleted(saved: Widget.Storage)
    requires saved.tasks == Some([Tasks.Record(None, true)])
    requires saved.userName == Some("Ava")
  {
    var q := new Widget.Page(saved, None, 20);
    assert q.userName == "Ava";
    assert q.items == [Tasks.Task(None, "", true)];
  }

  /**
   * A completed task that came back without its text, once un-completed,
   * is saved with `null` text and comes back open and blank from the next reload.
   */
  method ReloadUncompleted(saved: Widget.Storage)
    requires saved.tasks == Some([Tasks.Record(None, true)])
  {
    var q := new Widget.Page(saved, None, 20);
    q.ToggleTask(0);
    assert q.items == [Tasks.Task(None, "", false)];
    var again := new Widget.Page(q.store, None, 20);
    Tasks.RoundTripOpen(q.items);
    assert again.items == q.items;
  }

  /** The settings button opens the menu, an outside click closes it, a second button click reopens it. */
  method SettingsSession(p: Widget.Page)
    requires p.Valid() && !p.settingsActive
    modifies p
  {
    p.Click(Widget.SettingsButton);
    assert p.settingsActive;
    p.Click(Widget.InsideSettingsMenu);
    assert p.settingsActive;
    p.Click(Widget.Elsewhere);
    assert !p.settingsActive;
  }
}
