/**
 * The task list of the widget, as values: the rendered items, the records
 * persisted under the `tasks` key, and the translations between them.
 */
module Tasks {
  import opened Wrappers
  import Text

  /**
   * One rendered `<li>`: the text its handlers captured when it was created
   * (`None` when it was created from a stored `null`), the text its span
   * currently shows, and whether it carries the `completed` class.
   */
  datatype Task = Task(original: Option<string>, shown: string, completed: bool)

  /** One element of the persisted array: `{text, completed}`, where `text` may be `null`. */
  datatype Record = Record(text: Option<string>, completed: bool)

  /**
   * What the span shows: nothing while completed, otherwise the captured
   * text (assigning `null` to `textContent` renders as the empty string).
   */
  function ShownText(original: Option<string>, completed: bool): string {
    if completed then "" else original.GetOr("")
  }

  /** The span of an item always agrees with its captured text and flag. */
  predicate WellFormed(t: Task) {
    t.shown == ShownText(t.original, t.completed)
  }

  predicate AllWellFormed(items: seq<Task>) {
    forall i :: 0 <= i < |items| ==> WellFormed(items[i])
  }

  /** An item as `addTask` creates it: not completed and showing its own text. */
  predicate Fresh(t: Task) {
    t.original.Some? && t.original.value != "" && t.shown == t.original.value && !t.completed
  }

  /**
   * An item that is not completed and did not capture an empty text. Every
   * item `addTask` creates is one, and so is a completed item that came back
   * from storage with `null` text and was then un-completed. Only a captured
   * `""` is left out: neither `addTask` nor `saveTasks` ever produces it.
   */
  predicate Open(t: Task) {
    !t.completed && t.original != Some("")
  }

  /** `createTaskElement(taskText, isCompleted)`. */
  function CreateTask(taskText: Option<string>, isCompleted: bool): (t: Task)
    ensures WellFormed(t)
    ensures t.original == taskText && t.completed == isCompleted
    ensures isCompleted ==> t.shown == ""
    ensures !isCompleted && taskText.Some? ==> t.shown == taskText.value
  {
    Task(taskText, ShownText(taskText, isCompleted), isCompleted)
  }

  /** The click handler of the span: flip the flag, then blank or restore the text. */
  function Toggled(t: Task): (r: Task)
    ensures WellFormed(r)
    ensures r.original == t.original && r.completed == !t.completed
  {
    t.(completed := !t.completed, shown := ShownText(t.original, !t.completed))
  }

  /** Toggling twice gives back exactly the item that was there. */
  lemma ToggleTwice(t: Task)
    requires WellFormed(t)
    ensures Toggled(Toggled(t)) == t
  {
  }

  /** The list without the item at `i`; the others keep their order. */
  function RemoveAt(items: seq<Task>, i: nat): (r: seq<Task>)
    requires i < |items|
    ensures |r| == |items| - 1
    ensures forall j :: 0 <= j < i ==> r[j] == items[j]
    ensures forall j :: i <= j < |r| ==> r[j] == items[j + 1]
  {
    items[..i] + items[i + 1..]
  }

  /**
   * The record `saveTasks` pushes for one item: the span text, or, when that
   * is empty (falsy), the `data-original-text` attribute, which nothing sets,
   * so `null`.
   */
  function Saved(t: Task): (r: Record)
    ensures r.completed == t.completed
    ensures r.text.None? <==> t.shown == ""
    ensures r.text.Some? ==> r.text.value == t.shown
  {
    Record(if t.shown != "" then Some(t.shown) else None, t.completed)
  }

  /** The array `saveTasks` stores: one record per item, in list order. */
  function SaveRecords(items: seq<Task>): (rs: seq<Record>)
    ensures |rs| == |items|
  {
    seq(|items|, i requires 0 <= i < |items| => Saved(items[i]))
  }

  /** The items `loadTasks` appends for the stored records, one per record, in order. */
  function LoadRecords(rs: seq<Record>): (items: seq<Task>)
    ensures |items| == |rs|
  {
    seq(|rs|, i requires 0 <= i < |rs| => CreateTask(rs[i].text, rs[i].completed))
  }

  /** The loop of `saveTasks`: walk the items and push one record each. */
  method Serialize(items: seq<Task>) returns (rs: seq<Record>)
    ensures rs == SaveRecords(items)
  {
    rs := [];
    for k := 0 to |items|
      invariant |rs| == k
      invariant forall j :: 0 <= j < k ==> rs[j] == Saved(items[j])
    {
      rs := rs + [Saved(items[k])];
    }
  }

  /** The loop of `loadTasks`: create one item per stored record. */
  method Rebuild(rs: seq<Record>) returns (items: seq<Task>)
    ensures items == LoadRecords(rs)
    ensures AllWellFormed(items)
  {
    items := [];
    for k := 0 to |rs|
      invariant |items| == k
      invariant forall j :: 0 <= j < k ==> items[j] == CreateTask(rs[j].text, rs[j].completed)
    {
      items := items + [CreateTask(rs[k].text, rs[k].completed)];
    }
  }

  /**
   * What `saveTasks` stores for a consistent list: the flag of every item,
   * the captured text of every open item, and `null` for every completed
   * item.
   */
  lemma SavedRecordsOf(items: seq<Task>, i: nat)
    requires AllWellFormed(items) && i < |items|
    ensures SaveRecords(items)[i].completed == items[i].completed
    ensures items[i].completed ==> SaveRecords(items)[i].text == None
    ensures Open(items[i]) ==> SaveRecords(items)[i].text == items[i].original
  {
  }

  /**
   * A consistent list of open items survives a save followed by a load
   * unchanged: items as `addTask` creates them, and also items whose text an
   * earlier reload lost and that were un-completed since (`Task(None, "", false)`).
   */
  lemma RoundTripOpen(items: seq<Task>)
    requires AllWellFormed(items)
    requires forall i :: 0 <= i < |items| ==> Open(items[i])
    ensures LoadRecords(SaveRecords(items)) == items
  {
  }

  /**
   * Save then load on any consistent list: every flag survives, an open
   * item comes back as it was, and a completed item comes back with its
   * text lost (`null` captured, nothing shown, even once un-completed).
   */
  lemma RoundTripFlags(items: seq<Task>, i: nat)
    requires AllWellFormed(items) && i < |items|
    ensures LoadRecords(SaveRecords(items))[i].completed == items[i].completed
    ensures Open(items[i]) ==> LoadRecords(SaveRecords(items))[i] == items[i]
    ensures items[i].completed ==> LoadRecords(SaveRecords(items))[i] == Task(None, "", true)
    ensures items[i].completed ==> Toggled(LoadRecords(SaveRecords(items))[i]).shown == ""
  {
  }

  /** After one save and load, saving again stores the same records. */
  lemma SaveLoadSettles(items: seq<Task>)
    requires AllWellFormed(items)
    ensures SaveRecords(LoadRecords(SaveRecords(items))) == SaveRecords(items)
  {
  }

  /** The text `refreshTaskStats` displays: the item count, then ` tasks`. */
  function CountText(n: nat): (r: string)
    ensures |r| > 6 && r[|r| - 6..] == " tasks"
    ensures Text.AllDigits(r[..|r| - 6]) && Text.DecimalValue(r[..|r| - 6]) == n
    ensures r[..|r| - 6][0] == '0' ==> r[..|r| - 6] == "0"
  {
    var r := Text.NatToString(n) + " tasks";
    assert r[..|r| - 6] == Text.NatToString(n);
    r
  }

  /** One item reads "1 tasks": there is no singular form. */
  lemma CountTextOne()
    ensures CountText(1) == "1 tasks"
  {
  }

  // The persistence the comment on `saveTasks` describes: the captured text
  // is stored even when the span is blank.

  /** The record as evidently intended: the item's own text, whatever the span shows. */
  function IntendedSaved(t: Task): (r: Record)
    ensures r.completed == t.completed && r.text == t.original
  {
    Record(t.original, t.completed)
  }

  function IntendedSaveRecords(items: seq<Task>): (rs: seq<Record>)
    ensures |rs| == |items|
  {
    seq(|items|, i requires 0 <= i < |items| => IntendedSaved(items[i]))
  }

  /** With the intended records, save then load restores every consistent list exactly. */
  lemma IntendedRoundTrip(items: seq<Task>)
    requires AllWellFormed(items)
    ensures LoadRecords(IntendedSaveRecords(items)) == items
  {
  }

  /** As written, a completed task's text does not survive a save and load. */
  lemma CompletedTextLost()
    ensures var t := CreateTask(Some("Buy milk"), true);
            Saved(t).text == None && CreateTask(Saved(t).text, true) != t
  {
  }
}
