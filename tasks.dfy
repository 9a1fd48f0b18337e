/**
 * The to-do list of the widget. The rendered `<ul id="taskList">` is a sequence of `Item`s: each
 * `<li>` carries its task's priority, category and completion as CSS class names. The browser
 * key 'tasks' holds a sequence of `Record`s, the JSON array that `saveTasks` writes. `saveTasks`
 * decodes the class names back into record fields, and `loadTasks` encodes records as class names.
 */
module Tasks {
  import JsString

  /** The options of the priority `<select>`. */
  datatype Priority = Low | Medium | High

  /** The options of the category `<select>`. */
  datatype Category = Work | Study | Personal

  function PriorityName(p: Priority): string {
    match p
    case Low => "low"
    case Medium => "medium"
    case High => "high"
  }

  function CategoryName(c: Category): string {
    match c
    case Work => "work"
    case Study => "study"
    case Personal => "personal"
  }

  const PriorityNames: set<string> := {"low", "medium", "high"}
  const CategoryNames: set<string> := {"work", "study", "personal"}

  /** The class name that marks a finished task. */
  const CompletedClass: string := "completed"

  /** Every class name that `saveTasks` looks for. */
  const KnownClasses: set<string> := PriorityNames + CategoryNames + {CompletedClass}

  /** One `<li>`: the text of its `<span>`, its `data-deadline` attribute, its class list, and
      whether `filterTasks` set its `display` to 'none'. */
  datatype Item = Item(text: string, deadline: string, classes: set<string>, hidden: bool)

  /** One element of the stored JSON array. The priority and category are free strings, because an
      imported file can hold any value there. */
  datatype Record = Record(text: string, priority: string, category: string, deadline: string, completed: bool)

  /** A record that `loadTasks` renders and `saveTasks` reads back unchanged. */
  predicate ValidRecord(r: Record) {
    r.priority in PriorityNames && r.category in CategoryNames
  }

  predicate AllValid(rs: seq<Record>) {
    forall k :: 0 <= k < |rs| ==> ValidRecord(rs[k])
  }

  predicate IsCompleted(it: Item) {
    CompletedClass in it.classes
  }

  // ---------------------------------------------------------------------------------------------
  // Encoding and decoding (saveTasks, loadTasks)
  // ---------------------------------------------------------------------------------------------

  /** The record `saveTasks` builds from one `<li>`: 'high' wins over 'medium', which wins over the
      default 'low'; 'work' wins over 'study', which wins over the default 'personal'. Whatever the
      classes are, the record it builds has a known priority and a known category. */
  function Save(it: Item): (r: Record)
    ensures ValidRecord(r)
  {
    Record(
      it.text,
      if "high" in it.classes then "high" else if "medium" in it.classes then "medium" else "low",
      if "work" in it.classes then "work" else if "study" in it.classes then "study" else "personal",
      it.deadline,
      IsCompleted(it))
  }

  /** The array `saveTasks` stores: the children of the list, mapped through `Save`. */
  function Encode(items: seq<Item>): seq<Record> {
    seq(|items|, k requires 0 <= k < |items| => Save(items[k]))
  }

  /** The `<li>` that `loadTasks` builds from one record: both field values become class names,
      and 'completed' is added when the record is completed. */
  function Render(r: Record): Item {
    Item(r.text, r.deadline, {r.priority, r.category} + (if r.completed then {CompletedClass} else {}), false)
  }

  /** The children `loadTasks` appends for a stored array. */
  function RenderAll(rs: seq<Record>): seq<Item> {
    seq(|rs|, k requires 0 <= k < |rs| => Render(rs[k]))
  }

  /** Rendering a record with a known priority and category and saving it again gives the record back. */
  lemma SaveRender(r: Record)
    requires ValidRecord(r)
    ensures Save(Render(r)) == r
  {
  }

  /** A stored array of valid records survives `loadTasks` followed by `saveTasks` unchanged. */
  lemma {:induction false} EncodeRenderAll(rs: seq<Record>)
    requires AllValid(rs)
    ensures Encode(RenderAll(rs)) == rs
  {
    forall k | 0 <= k < |rs| ensures Encode(RenderAll(rs))[k] == rs[k] {
      SaveRender(rs[k]);
    }
  }

  /** An unknown priority, one that is no class name the decoder looks for, is saved back as 'low'. */
  lemma UnknownPriorityDefaultsToLow(r: Record)
    requires r.category in CategoryNames && r.priority !in KnownClasses
    ensures Save(Render(r)) == r.(priority := "low")
  {
  }

  /** An unknown category, one that is no class name the decoder looks for, is saved back as 'personal'. */
  lemma UnknownCategoryDefaultsToPersonal(r: Record)
    requires r.priority in PriorityNames && r.category !in KnownClasses
    ensures Save(Render(r)) == r.(category := "personal")
  {
  }

  /** For any stored array, load-then-save keeps every text and deadline, keeps the completion flag
      of every record whose priority and category are not literally 'completed', and normalises
      priority and category to known names. */
  lemma {:induction false} EncodeRenderAllKeeps(rs: seq<Record>)
    ensures |Encode(RenderAll(rs))| == |rs|
    ensures forall k :: 0 <= k < |rs| ==>
      var r := Encode(RenderAll(rs))[k];
      ValidRecord(r) && r.text == rs[k].text && r.deadline == rs[k].deadline
      && (rs[k].priority != CompletedClass && rs[k].category != CompletedClass ==> r.completed == rs[k].completed)
  {
  }

  // ---------------------------------------------------------------------------------------------
  // Progress (updateTaskProgress)
  // ---------------------------------------------------------------------------------------------

  /** The number of children with the 'completed' class. */
  function CompletedCount(items: seq<Item>): (c: nat)
    ensures c <= |items|
  {
    if items == [] then 0
    else (if IsCompleted(items[0]) then 1 else 0) + CompletedCount(items[1..])
  }

  /** round(100 * c / n) for 0 <= c <= n and n > 0, in integers: (200 * c + n) / (2 * n).
      It is the nearest integer to 100 * c / n, halves rounded up, which is what `Math.round` does
      with the exact quotient, and it lies in 0..100. */
  function RoundedPercent(c: nat, n: nat): (p: nat)
    requires 0 < n && c <= n
    ensures 2 * n * p <= 200 * c + n < 2 * n * (p + 1)
    ensures p <= 100
  {
    var a, d := 200 * c + n, 2 * n;
    var p := a / d;
    assert a == d * p + a % d && 0 <= a % d < d;
    assert d * (p + 1) == d * p + d;
    assert p <= 100 by {
      if p > 100 {
        MulMonotone(d, 101, p);
      }
    }
    p
  }

  lemma MulMonotone(d: nat, x: nat, y: nat)
    requires x <= y
    ensures d * x <= d * y
  {
    assert d * y == d * x + d * (y - x);
  }

  /** The percentage `updateTaskProgress` shows: 0 for an empty list, otherwise the rounded share of
      completed children. */
  function Progress(items: seq<Item>): (p: nat)
    ensures p <= 100
  {
    if |items| == 0 then 0 else RoundedPercent(CompletedCount(items), |items|)
  }

  /** The rounded percentage is 100 exactly when at most half a percent is left open. */
  lemma RoundedPercentFull(c: nat, n: nat)
    requires 0 < n && c <= n
    ensures RoundedPercent(c, n) == 100 <==> 200 * c >= 199 * n
  {
    var p := RoundedPercent(c, n);
    if p < 100 {
      MulMonotone(2 * n, p + 1, 100);
    }
  }

  /** The rounded percentage is 0 exactly when less than half a percent is done. */
  lemma RoundedPercentZero(c: nat, n: nat)
    requires 0 < n && c <= n
    ensures RoundedPercent(c, n) == 0 <==> 200 * c < n
  {
    var p := RoundedPercent(c, n);
    if p > 0 {
      MulMonotone(2 * n, 1, p);
    }
  }

  /** With at least one task, the bar shows 100 exactly when at most half a percent is left open. */
  lemma ProgressFull(items: seq<Item>)
    requires |items| > 0
    ensures Progress(items) == 100 <==> 200 * CompletedCount(items) >= 199 * |items|
  {
    RoundedPercentFull(CompletedCount(items), |items|);
  }

  /** A non-empty list whose tasks are all completed shows 100. */
  lemma AllCompletedIsFull(items: seq<Item>)
    requires |items| > 0 && CompletedCount(items) == |items|
    ensures Progress(items) == 100
  {
    ProgressFull(items);
  }

  /** Below 200 tasks the bar shows 100 exactly when every task is completed. */
  lemma ProgressFullSmall(items: seq<Item>)
    requires 0 < |items| < 200
    ensures Progress(items) == 100 <==> CompletedCount(items) == |items|
  {
    ProgressFull(items);
  }

  /** From 200 tasks on, one open task is rounded away and the bar already shows 100. */
  lemma OneOpenTaskRoundsToFull(items: seq<Item>)
    requires |items| >= 200 && CompletedCount(items) == |items| - 1
    ensures Progress(items) == 100
  {
    ProgressFull(items);
  }

  /** The bar shows 0 exactly when the list is empty or less than half a percent of it is completed. */
  lemma ProgressZero(items: seq<Item>)
    ensures Progress(items) == 0 <==> |items| == 0 || 200 * CompletedCount(items) < |items|
  {
    if |items| > 0 {
      RoundedPercentZero(CompletedCount(items), |items|);
    }
  }

  /** `CompletedCount` is additive over concatenation. */
  lemma {:induction false} CountConcat(a: seq<Item>, b: seq<Item>)
    ensures CompletedCount(a + b) == CompletedCount(a) + CompletedCount(b)
  {
    if a == [] {
      assert a + b == b;
    } else {
      assert (a + b)[0] == a[0];
      assert (a + b)[1..] == a[1..] + b;
      CountConcat(a[1..], b);
    }
  }

  /** All tasks are counted exactly when all tasks carry the 'completed' class. */
  lemma {:induction false} CountAll(items: seq<Item>)
    ensures CompletedCount(items) == |items| <==> forall k :: 0 <= k < |items| ==> IsCompleted(items[k])
  {
    if items != [] {
      CountAll(items[1..]);
      if forall k :: 0 <= k < |items| ==> IsCompleted(items[k]) {
        assert forall k :: 0 <= k < |items[1..]| ==> IsCompleted(items[1..][k]) by {
          forall k | 0 <= k < |items[1..]| ensures IsCompleted(items[1..][k]) {
            assert items[1..][k] == items[k + 1];
          }
        }
      }
      if CompletedCount(items) == |items| {
        forall k | 0 <= k < |items| ensures IsCompleted(items[k]) {
          if k > 0 { assert items[k] == items[1..][k - 1]; }
        }
      }
    }
  }

  // ---------------------------------------------------------------------------------------------
  // The list operations (addTask, toggleTaskComplete, editTask, removeTask, filterTasks)
  // ---------------------------------------------------------------------------------------------

  /** The `<li>` that `addTask` appends: the chosen priority and category as classes, not completed,
      displayed. */
  function NewItem(text: string, p: Priority, c: Category, deadline: string): Item {
    Item(text, deadline, {PriorityName(p), CategoryName(c)}, false)
  }

  /** A freshly added task is saved with the chosen priority and category and `completed == false`. */
  lemma SaveNewItem(text: string, p: Priority, c: Category, deadline: string)
    ensures Save(NewItem(text, p, c, deadline)) == Record(text, PriorityName(p), CategoryName(c), deadline, false)
    ensures !IsCompleted(NewItem(text, p, c, deadline))
  {
    match p
    case Low =>
    case Medium =>
    case High =>
  }

  /** Appending an item appends its record and leaves the earlier records as they were. */
  lemma EncodeAppend(items: seq<Item>, it: Item)
    ensures Encode(items + [it]) == Encode(items) + [Save(it)]
  {
  }

  /** The sequence without its element at `i`. */
  function RemoveAt<T>(s: seq<T>, i: nat): (r: seq<T>)
    requires i < |s|
    ensures |r| == |s| - 1
    ensures forall k :: 0 <= k < i ==> r[k] == s[k]
    ensures forall k :: i <= k < |r| ==> r[k] == s[k + 1]
  {
    s[..i] + s[i + 1..]
  }

  /** Removing the last element undoes an append. */
  lemma RemoveAppended<T>(s: seq<T>, x: T)
    ensures RemoveAt(s + [x], |s|) == s
  {
  }

  /** Saving commutes with removing a child: removing entry `i` removes exactly record `i`. */
  lemma EncodeRemoveAt(items: seq<Item>, i: nat)
    requires i < |items|
    ensures Encode(RemoveAt(items, i)) == RemoveAt(Encode(items), i)
  {
  }

  /** Removing entry `i` lowers the completed count by one if that entry was completed. */
  lemma {:induction false} CountRemoveAt(items: seq<Item>, i: nat)
    requires i < |items|
    ensures CompletedCount(RemoveAt(items, i)) == CompletedCount(items) - (if IsCompleted(items[i]) then 1 else 0)
  {
    if i == 0 {
      assert RemoveAt(items, 0) == items[1..];
    } else {
      var r := RemoveAt(items, i);
      assert r[0] == items[0];
      assert r[1..] == RemoveAt(items[1..], i - 1);
      CountRemoveAt(items[1..], i - 1);
    }
  }

  /** `classList.toggle('completed')` on one item. */
  function Toggled(it: Item): (r: Item)
    ensures IsCompleted(r) <==> !IsCompleted(it)
    ensures r.classes - {CompletedClass} == it.classes - {CompletedClass}
    ensures r.text == it.text && r.deadline == it.deadline && r.hidden == it.hidden
  {
    it.(classes := if CompletedClass in it.classes then it.classes - {CompletedClass} else it.classes + {CompletedClass})
  }

  /** The list with entry `i` toggled. */
  function ToggleAt(items: seq<Item>, i: nat): (r: seq<Item>)
    requires i < |items|
    ensures |r| == |items| && r[i] == Toggled(items[i])
    ensures forall k :: 0 <= k < |items| && k != i ==> r[k] == items[k]
  {
    items[i := Toggled(items[i])]
  }

  /** Toggling entry `i` flips that record's `completed` field and changes nothing else in the
      stored array. */
  lemma EncodeToggleAt(items: seq<Item>, i: nat)
    requires i < |items|
    ensures var e := Encode(items);
      Encode(ToggleAt(items, i)) == e[i := e[i].(completed := !e[i].completed)]
  {
  }

  /** Toggling the same entry twice restores the list. */
  lemma ToggleTwice(items: seq<Item>, i: nat)
    requires i < |items|
    ensures ToggleAt(ToggleAt(items, i), i) == items
  {
    var it := items[i];
    if CompletedClass in it.classes {
      assert it.classes - {CompletedClass} + {CompletedClass} == it.classes;
    } else {
      assert it.classes + {CompletedClass} - {CompletedClass} == it.classes;
    }
  }

  /** Toggling entry `i` moves the completed count by exactly one, in the direction of the flip. */
  lemma {:induction false} CountToggleAt(items: seq<Item>, i: nat)
    requires i < |items|
    ensures CompletedCount(ToggleAt(items, i)) ==
      if IsCompleted(items[i]) then CompletedCount(items) - 1 else CompletedCount(items) + 1
  {
    var t := ToggleAt(items, i);
    if i == 0 {
      assert t[1..] == items[1..];
    } else {
      assert t[0] == items[0];
      assert t[1..] == ToggleAt(items[1..], i - 1);
      CountToggleAt(items[1..], i - 1);
    }
  }

  /** Whether `filterTasks` displays an item for the selected filter. */
  predicate Shown(filter: string, it: Item) {
    filter == "all" || filter in it.classes
  }

  /** The list after `filterTasks`: only the `display` of each item changes. */
  function Filtered(filter: string, items: seq<Item>): seq<Item> {
    seq(|items|, k requires 0 <= k < |items| => items[k].(hidden := !Shown(filter, items[k])))
  }

  /** Filtering hides exactly the items the filter does not match, and neither the stored array
      nor the progress can tell a filtered list from the original one. */
  lemma {:induction false} FilterIsView(filter: string, items: seq<Item>)
    ensures |Filtered(filter, items)| == |items|
    ensures forall k :: 0 <= k < |items| ==> (Filtered(filter, items)[k].hidden <==> !Shown(filter, items[k]))
    ensures Encode(Filtered(filter, items)) == Encode(items)
    ensures CompletedCount(Filtered(filter, items)) == CompletedCount(items)
    ensures Progress(Filtered(filter, items)) == Progress(items)
  {
    if items != [] {
      FilterIsView(filter, items[1..]);
      assert Filtered(filter, items)[1..] == Filtered(filter, items[1..]);
    }
  }

  /** Editing entry `i` and submitting the form again without changes. The edit box receives the
      entry's text as it is, which need not be trimmed when the entry was loaded or imported; if it
      is not all whitespace, `addTask` accepts it. The re-added record holds the trimmed text and
      the old deadline, takes the priority and category the selects now show, loses its completion,
      and moves to the end of the stored array. */
  lemma EditThenReAdd(items: seq<Item>, i: nat, p: Priority, c: Category)
    requires i < |items| && JsString.Trim(items[i].text) != []
    ensures var e := Encode(items);
      Encode(RemoveAt(items, i) + [NewItem(JsString.Trim(items[i].text), p, c, items[i].deadline)])
        == RemoveAt(e, i) + [e[i].(text := JsString.Trim(items[i].text),
                                   priority := PriorityName(p), category := CategoryName(c), completed := false)]
  {
    var t := JsString.Trim(items[i].text);
    EncodeAppend(RemoveAt(items, i), NewItem(t, p, c, items[i].deadline));
    EncodeRemoveAt(items, i);
    SaveNewItem(t, p, c, items[i].deadline);
  }

  /** An entry whose text is already trimmed, such as one `addTask` created, comes back with the
      same text. */
  lemma EditTrimmedThenReAdd(items: seq<Item>, i: nat, typed: string, p: Priority, c: Category)
    requires i < |items| && items[i].text == JsString.Trim(typed) && items[i].text != []
    ensures JsString.Trim(items[i].text) == items[i].text
    ensures var e := Encode(items);
      Encode(RemoveAt(items, i) + [NewItem(items[i].text, p, c, items[i].deadline)])
        == RemoveAt(e, i) + [e[i].(priority := PriorityName(p), category := CategoryName(c), completed := false)]
  {
    JsString.TrimIdempotent(typed);
    EditThenReAdd(items, i, p, c);
  }

  /** Adding a task never changes how many tasks are completed. */
  lemma AddKeepsCount(items: seq<Item>, text: string, p: Priority, c: Category, deadline: string)
    ensures CompletedCount(items + [NewItem(text, p, c, deadline)]) == CompletedCount(items)
  {
    CountConcat(items, [NewItem(text, p, c, deadline)]);
    SaveNewItem(text, p, c, deadline);
  }

  // ---------------------------------------------------------------------------------------------
  // The page: the rendered list and the stored array
  // ---------------------------------------------------------------------------------------------

  /** What the user picked in the import dialog: nothing, a file whose text is not JSON, or a file
      that parses to an array of records. */
  datatype ImportFile = NoFile | NotJson | Parsed(records: seq<Record>)

  /** The task list of one page: the children of `<ul id="taskList">`, the array stored under the
      key 'tasks' (an absent key reads as the empty array), and the percentage the progress line shows. */
  class TaskList {
    var items: seq<Item>
    var stored: seq<Record>
    var progress: nat

    /** A freshly loaded page, before `loadTasks` runs: an empty list and whatever the browser has stored. */
    constructor (saved: seq<Record>)
      ensures items == [] && stored == saved && progress == 0
    {
      items := [];
      stored := saved;
      progress := 0;
    }

    /** `addTask`: a text that is empty after trimming is refused and nothing changes; otherwise the
        trimmed text is appended as a new, open task and the list is saved. */
    method AddTask(text: string, priority: Priority, category: Category, deadline: string) returns (added: bool)
      modifies this
      ensures added <==> JsString.Trim(text) != []
      ensures added ==> items == old(items) + [NewItem(JsString.Trim(text), priority, category, deadline)]
      ensures added ==> stored == old(Encode(items)) + [Record(JsString.Trim(text), PriorityName(priority), CategoryName(category), deadline, false)]
      ensures added ==> progress == Progress(items)
      ensures !added ==> items == old(items) && stored == old(stored) && progress == old(progress)
    {
      var t := JsString.Trim(text);
      if t == [] {
        return false;
      }
      var it := NewItem(t, priority, category, deadline);
      EncodeAppend(items, it);
      SaveNewItem(t, priority, category, deadline);
      items := items + [it];
      SaveTasks();
      UpdateTaskProgress();
      added := true;
    }

    /** `toggleTaskComplete`: flips entry `i` and saves the list. */
    method ToggleTaskComplete(i: nat)
      requires i < |items|
      modifies this
      ensures items == ToggleAt(old(items), i)
      ensures stored == Encode(items) && progress == Progress(items)
    {
      items := ToggleAt(items, i);
      UpdateTaskProgress();
      SaveTasks();
    }

    /** `editTask`: hands entry `i`'s text and deadline back to the form and removes the entry from the
        list, without saving and without recomputing the progress. */
    method EditTask(i: nat) returns (text: string, deadline: string)
      requires i < |items|
      modifies this
      ensures text == old(items[i].text) && deadline == old(items[i].deadline)
      ensures items == RemoveAt(old(items), i)
      ensures stored == old(stored) && progress == old(progress)
    {
      text := items[i].text;
      deadline := items[i].deadline;
      items := RemoveAt(items, i);
    }

    /** `removeTask`: deletes entry `i` and saves the list. */
    method RemoveTask(i: nat)
      requires i < |items|
      modifies this
      ensures items == RemoveAt(old(items), i)
      ensures stored == RemoveAt(old(Encode(items)), i) && progress == Progress(items)
    {
      EncodeRemoveAt(items, i);
      items := RemoveAt(items, i);
      SaveTasks();
      UpdateTaskProgress();
    }

    /** `saveTasks`: stores the encoding of the current children. */
    method SaveTasks()
      modifies this
      ensures stored == Encode(items)
      ensures items == old(items) && progress == old(progress)
    {
      stored := Encode(items);
    }

    /** `loadTasks`: appends one rendered child per stored record, then recomputes the progress. */
    method LoadTasks()
      modifies this
      ensures items == old(items) + RenderAll(stored)
      ensures stored == old(stored) && progress == Progress(items)
    {
      var saved := stored;
      var k := 0;
      while k < |saved|
        invariant 0 <= k <= |saved| && stored == saved
        invariant items == old(items) + RenderAll(saved[..k])
      {
        assert RenderAll(saved[..k + 1]) == RenderAll(saved[..k]) + [Render(saved[k])];
        items := items + [Render(saved[k])];
        k := k + 1;
      }
      assert saved[..k] == saved;
      UpdateTaskProgress();
    }

    /** `filterTasks`: sets the `display` of every child from the selected filter. */
    method FilterTasks(filter: string)
      modifies this
      ensures items == Filtered(filter, old(items))
      ensures stored == old(stored) && progress == old(progress)
    {
      var k := 0;
      while k < |items|
        invariant 0 <= k <= |items| == |old(items)|
        invariant forall j :: 0 <= j < k ==> items[j] == old(items)[j].(hidden := !Shown(filter, old(items)[j]))
        invariant forall j :: k <= j < |items| ==> items[j] == old(items)[j]
        invariant stored == old(stored) && progress == old(progress)
      {
        items := items[k := items[k].(hidden := !Shown(filter, items[k]))];
        k := k + 1;
      }
    }

    /** `updateTaskProgress`: recomputes the shown percentage from the children. */
    method UpdateTaskProgress()
      modifies this
      ensures progress == Progress(items)
      ensures items == old(items) && stored == old(stored)
    {
      progress := Progress(items);
    }

    /** `importTasks`: a parsed array replaces the stored array, the list is cleared and reloaded from
        it. Without a file, or when the text is not JSON, nothing changes. */
    method ImportTasks(file: ImportFile)
      modifies this
      ensures file.Parsed? ==> stored == file.records && items == RenderAll(file.records) && progress == Progress(items)
      ensures file.Parsed? && AllValid(file.records) ==> Encode(items) == stored
      ensures !file.Parsed? ==> items == old(items) && stored == old(stored) && progress == old(progress)
    {
      if !file.Parsed? {
        return;
      }
      stored := file.records;
      items := [];
      LoadTasks();
      if AllValid(file.records) {
        EncodeRenderAll(file.records);
      }
    }
  }

  /** Adding "Buy milk" to an empty list and marking it complete shows 100 percent; removing it saves
      an empty array and shows 0. */
  method BuyMilk() {
    var page := new TaskList([]);
    page.LoadTasks();
    assert page.items == [];
    assert JsString.Trim("Buy milk") == "Buy milk" by {
      assert !JsString.IsTrimmable('B') && !JsString.IsTrimmable('k');
    }
    var added := page.AddTask("Buy milk", High, Personal, "");
    var milk := NewItem("Buy milk", High, Personal, "");
    assert page.items == [milk];
    page.ToggleTaskComplete(0);
    assert page.items == [Toggled(milk)];
    assert IsCompleted(page.items[0]);
    assert CompletedCount(page.items) == 1;
    assert page.progress == 100;
    page.RemoveTask(0);
    assert page.stored == [] && page.progress == 0;
  }
}
