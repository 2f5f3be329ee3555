/**
 * The task-list widget (MyTask, MyTasks, MyTaskView of scripts/app2.js).
 *
 * The view owns an ordered collection of tasks, a rendered list of items
 * `<li id="task-<id>">`, an export link backed by a snapshot of the collection,
 * and one file reader used for imports. Every handler keeps three things in
 * step with the collection: the rendered list, the export link's enabled state
 * and the export snapshot. The DOM, the blob and its URL, the clock and JSON
 * parsing are abstract: the rendered list is the sequence of item ids, the blob
 * is the sequence of tasks it serializes, the clock is a `now` parameter and a
 * parse is given as its outcome.
 */
module TaskList {
  import opened Wrappers

  /** Every exported file name starts with this, and an import must too. */
  const ExportPrefix: string := "mytask"
  /** Every exported file name ends with this. */
  const ExportSuffix: string := ".json"

  /** One task: the synthesized id and the user's title. */
  datatype Task = Task(id: nat, title: string)

  /** A file the user picked in the import input. */
  datatype ImportFile = ImportFile(name: string)

  /** One element of a parsed import: either field may be absent from the JSON object. */
  datatype Record = Record(id: Option<int>, title: Option<string>)

  /** What parsing the reader's text gives: a syntax error or an array of records. */
  datatype Parse = Malformed | Records(records: seq<Record>)

  /** The three alert dialogs of the widget. */
  datatype Alert = ChooseFile | ChooseExportedFile | CorruptedFile

  /** Outcome of the import-file check. */
  datatype Check = Pass | Fail(alert: Alert)

  /** Outcome of a click on the import button. */
  datatype ImportStart =
    | ReadStarted          // the reader started reading the file as text
    | Rejected(alert: Alert) // the check failed: an alert, and no read
    | ReaderBusy           // the reader is still loading: the browser throws, no read

  // ---------------------------------------------------------------------------
  // The import-file check

  /** The anchored regular-expression test `/^p/.test(s)`, character by character. */
  function StartsWith(s: string, p: string): (b: bool)
    ensures b <==> p <= s
  {
    if p == [] then true
    else if s == [] || s[0] != p[0] then false
    else
      assert p[1..] <= s[1..] <==> p <= s by {
        assert p == [p[0]] + p[1..];
        assert s == [s[0]] + s[1..];
      }
      StartsWith(s[1..], p[1..])
  }

  /**
   * `_validate`: no file is an error, a name without the export prefix is
   * another, and everything else is accepted.
   */
  function Validate(file: Option<ImportFile>): (r: Check)
    ensures r == Pass <==> file.Some? && ExportPrefix <= file.value.name
    ensures file.None? ==> r == Fail(ChooseFile)
    ensures file.Some? && !(ExportPrefix <= file.value.name) ==> r == Fail(ChooseExportedFile)
  {
    if file.None? then Fail(ChooseFile)
    else if !StartsWith(file.value.name, ExportPrefix) then Fail(ChooseExportedFile)
    else Pass
  }

  // ---------------------------------------------------------------------------
  // The export file name

  predicate IsDigit(c: char) {
    '0' <= c <= '9'
  }

  ghost predicate AllDigits(s: string) {
    forall i | 0 <= i < |s| :: IsDigit(s[i])
  }

  function DigitChar(d: nat): (c: char)
    requires d < 10
  {
    (('0' as int) + d) as char
  }

  /** The number a string of decimal digits denotes, most significant digit first. */
  function DigitsValue(s: string): nat
    requires AllDigits(s)
  {
    if s == [] then 0
    else 10 * DigitsValue(s[..|s| - 1]) + ((s[|s| - 1] as int) - ('0' as int))
  }

  /** JavaScript's conversion of a non-negative integer to a decimal string. */
  function Decimal(n: nat): (s: string)
    ensures s != [] && AllDigits(s)
    ensures s[0] == '0' ==> n == 0
    decreases n
  {
    if n < 10 then [DigitChar(n)] else Decimal(n / 10) + [DigitChar(n % 10)]
  }

  /** Reading back the decimal string of `n` gives `n`: the conversion loses nothing. */
  lemma {:induction false} DecimalRoundTrip(n: nat)
    ensures DigitsValue(Decimal(n)) == n
  {
    if n >= 10 {
      var s := Decimal(n);
      assert s[..|s| - 1] == Decimal(n / 10);
      DecimalRoundTrip(n / 10);
    }
  }

  /**
   * `_getFileName`: the export prefix, the timestamp in decimal and the suffix.
   * The part between prefix and suffix is all digits and reads back as `now`.
   */
  function FileName(now: nat): (name: string)
    ensures ExportPrefix <= name
    ensures |ExportPrefix| + |ExportSuffix| < |name|
    ensures name[|name| - |ExportSuffix|..] == ExportSuffix
    ensures AllDigits(name[|ExportPrefix|..|name| - |ExportSuffix|])
    ensures DigitsValue(name[|ExportPrefix|..|name| - |ExportSuffix|]) == now
  {
    var digits := Decimal(now);
    DecimalRoundTrip(now);
    var name := ExportPrefix + digits + ExportSuffix;
    assert name[|ExportPrefix|..|name| - |ExportSuffix|] == digits;
    assert name[..|ExportPrefix|] == ExportPrefix;
    name
  }

  /** A file the widget exported passes the import check. */
  lemma ExportedNameIsAccepted(now: nat)
    ensures Validate(Some(ImportFile(FileName(now)))) == Pass
  {
  }

  /** Exports made at different times get different names. */
  lemma ExportedNamesDiffer(a: nat, b: nat)
    requires a != b
    ensures FileName(a) != FileName(b)
  {
  }

  // ---------------------------------------------------------------------------
  // Collections of tasks

  function Ids(tasks: seq<Task>): seq<nat> {
    seq(|tasks|, i requires 0 <= i < |tasks| => tasks[i].id)
  }

  function Titles(tasks: seq<Task>): seq<string> {
    seq(|tasks|, i requires 0 <= i < |tasks| => tasks[i].title)
  }

  /** Ids grow along the collection; in particular no two tasks share an id. */
  ghost predicate IdsIncreasing(tasks: seq<Task>) {
    forall i, j | 0 <= i < j < |tasks| :: tasks[i].id < tasks[j].id
  }

  /** `collection.get(id)`: the position of the task with that id, if any. */
  function IndexOfId(tasks: seq<Task>, id: nat): (k: Option<nat>)
    ensures k.Some? ==> k.value < |tasks| && tasks[k.value].id == id
    ensures k.Some? ==> forall j | 0 <= j < k.value :: tasks[j].id != id
    ensures k.None? ==> forall j | 0 <= j < |tasks| :: tasks[j].id != id
  {
    if tasks == [] then None
    else if tasks[0].id == id then Some(0)
    else
      match IndexOfId(tasks[1..], id)
      case None => None
      case Some(k) => Some(k + 1)
  }

  /** Removing `$('#task-' + id)`: the first rendered item with that id goes. */
  function RemoveFirst(items: seq<nat>, id: nat): seq<nat> {
    if items == [] then []
    else if items[0] == id then items[1..]
    else [items[0]] + RemoveFirst(items[1..], id)
  }

  /** When `id` first occurs at `k`, removing it from the DOM drops exactly position `k`. */
  lemma {:induction false} RemoveFirstAt(items: seq<nat>, k: nat)
    requires k < |items|
    requires forall j | 0 <= j < k :: items[j] != items[k]
    ensures RemoveFirst(items, items[k]) == items[..k] + items[k + 1..]
  {
    if k > 0 {
      RemoveFirstAt(items[1..], k - 1);
      assert items[1..][..k - 1] + items[1..][k..] == items[1..k] + items[k + 1..];
    }
  }

  /**
   * The collection and the rendered list lose the same task: removing the
   * task at `k` from the collection and its item from the DOM keeps
   * the rendered list equal to the collection's ids.
   */
  lemma RemoveKeepsRenderedInStep(tasks: seq<Task>, k: nat)
    requires k < |tasks| && IdsIncreasing(tasks)
    ensures RemoveFirst(Ids(tasks), tasks[k].id) == Ids(tasks[..k] + tasks[k + 1..])
  {
    var ids := Ids(tasks);
    RemoveFirstAt(ids, k);
    var rest := tasks[..k] + tasks[k + 1..];
    forall j | 0 <= j < |rest|
      ensures Ids(rest)[j] == (ids[..k] + ids[k + 1..])[j]
    {
      if j < k { assert rest[j] == tasks[j]; } else { assert rest[j] == tasks[j + 1]; }
    }
  }

  /**
   * Removing the task at `k` keeps every other task, in order, and nothing
   * else: exactly the tasks with a different id remain.
   */
  lemma RemoveKeepsOthers(tasks: seq<Task>, k: nat)
    requires k < |tasks| && IdsIncreasing(tasks)
    ensures IdsIncreasing(tasks[..k] + tasks[k + 1..])
    ensures forall t :: t in tasks[..k] + tasks[k + 1..] <==> t in tasks && t.id != tasks[k].id
  {
  }

  /** The title Backbone gives a record: its own, or the default empty title. */
  function TitleOf(r: Record): string {
    r.title.GetOr("")
  }

  /**
   * The tasks a reset with `records` creates when the id counter stands at
   * `counter`: the records' titles in order, with new ids from the counter.
   * The records' own ids are overwritten by `MyTask.initialize`.
   */
  function Imported(records: seq<Record>, counter: nat): seq<Task> {
    seq(|records|, i requires 0 <= i < |records| => Task(counter + 1 + i, TitleOf(records[i])))
  }

  /**
   * An import keeps the records' titles in order and gives every task an id
   * above the counter, increasing along the list.
   */
  lemma ImportedTasks(records: seq<Record>, counter: nat)
    ensures |Imported(records, counter)| == |records|
    ensures forall i | 0 <= i < |records| :: Imported(records, counter)[i].title == TitleOf(records[i])
    ensures IdsIncreasing(Imported(records, counter))
    ensures forall t | t in Imported(records, counter) :: counter < t.id <= counter + |records|
  {
  }

  /** The JSON array an export snapshot serializes to, as it parses back. */
  function AsRecords(tasks: seq<Task>): seq<Record> {
    seq(|tasks|, i requires 0 <= i < |tasks| => Record(Some(tasks[i].id), Some(tasks[i].title)))
  }

  /**
   * Importing an export gives back its titles in order, but not its ids: every
   * id is new, so once the counter has passed the exported ids the imported
   * collection shares no id with the exported one.
   */
  lemma ReimportKeepsTitles(tasks: seq<Task>, counter: nat)
    requires forall t | t in tasks :: t.id <= counter
    ensures Titles(Imported(AsRecords(tasks), counter)) == Titles(tasks)
    ensures forall t, u | t in Imported(AsRecords(tasks), counter) && u in tasks :: t.id != u.id
  {
  }

  // ---------------------------------------------------------------------------
  // The view

  class TaskView {
    /** `_.uniqueId`'s counter: the last id handed out. */
    var idCounter: nat
    /** The collection, in insertion order. */
    var tasks: seq<Task>
    /** The ids of the `<li id="task-<id>">` items under `.mod-tasks`, in DOM order. */
    var rendered: seq<nat>
    /** The export link lacks the `state-disabled` class. */
    var exportEnabled: bool
    /** The tasks serialized in the blob the export link points at. */
    var snapshot: seq<Task>
    /** The export link's `download` attribute. */
    var download: string
    /** The file the reader is loading, if a read is in progress. */
    var reading: Option<ImportFile>

    /**
     * What every handler keeps: the rendered list is the collection's ids, ids
     * increase along the collection and none is above the counter, and the
     * export link is enabled exactly when the collection is non-empty, then
     * carrying the current contents under an exportable name.
     */
    ghost predicate Valid()
      reads this
    {
      && rendered == Ids(tasks)
      && IdsIncreasing(tasks)
      && (forall t | t in tasks :: t.id <= idCounter)
      && (exportEnabled <==> tasks != [])
      && (exportEnabled ==> snapshot == tasks && ExportPrefix <= download)
    }

    /** `initialize`: an empty collection, an empty list and a disabled export link. */
    constructor (issued: nat)
      ensures Valid()
      ensures idCounter == issued && tasks == [] && rendered == []
      ensures !exportEnabled && reading == None
    {
      idCounter := issued;
      tasks := [];
      rendered := [];
      exportEnabled := false;
      snapshot := [];
      download := "";
      reading := None;
    }

    /** `MyTask.initialize`: a new task takes the next id from the counter. */
    method NewTask(title: string) returns (task: Task)
      modifies this`idCounter
      ensures idCounter == old(idCounter) + 1
      ensures task == Task(idCounter, title)
    {
      idCounter := idCounter + 1;
      task := Task(idCounter, title);
    }

    /** `renderTask`: one item appended to the list. */
    method RenderTask(task: Task)
      modifies this`rendered
      ensures rendered == old(rendered) + [task.id]
    {
      rendered := rendered + [task.id];
    }

    /** `_makeBlobURL`: the blob serializes the current collection. */
    method MakeBlob()
      modifies this`snapshot
      ensures snapshot == tasks
    {
      snapshot := tasks;
    }

    /**
     * `refreshExportLink`: an empty collection disables the link and leaves
     * the old blob and name in place; otherwise a new blob and a name
     * stamped with `now` are bound to the enabled link.
     */
    method RefreshExportLink(now: nat)
      modifies this`exportEnabled, this`snapshot, this`download
      ensures exportEnabled <==> tasks != []
      ensures tasks == [] ==> snapshot == old(snapshot) && download == old(download)
      ensures tasks != [] ==> snapshot == tasks && download == FileName(now)
    {
      if |tasks| == 0 {
        exportEnabled := false;
        return;
      }
      MakeBlob();
      exportEnabled := true;
      download := FileName(now);
    }

    /** The collection's `reset` handler: the list is emptied and re-rendered in order. */
    method OnReset(now: nat)
      modifies this`rendered, this`exportEnabled, this`snapshot, this`download
      ensures rendered == Ids(tasks)
      ensures exportEnabled <==> tasks != []
      ensures tasks == [] ==> snapshot == old(snapshot) && download == old(download)
      ensures tasks != [] ==> snapshot == tasks && download == FileName(now)
    {
      rendered := [];
      for i := 0 to |tasks|
        invariant rendered == Ids(tasks[..i])
        invariant snapshot == old(snapshot) && download == old(download)
      {
        RenderTask(tasks[i]);
        assert tasks[..i + 1] == tasks[..i] + [tasks[i]];
      }
      assert tasks[..|tasks|] == tasks;
      RefreshExportLink(now);
    }

    /**
     * `_onSubmit` and the `add` handler: one task with the given title and a
     * fresh id is appended, one item for it is appended to the list, and the
     * export link then carries the whole collection.
     */
    method Submit(title: string, now: nat)
      requires Valid()
      modifies this
      ensures Valid()
      ensures idCounter == old(idCounter) + 1
      ensures tasks == old(tasks) + [Task(idCounter, title)]
      ensures forall t | t in old(tasks) :: t.id != idCounter
      ensures rendered == old(rendered) + [idCounter]
      ensures exportEnabled && snapshot == tasks && download == FileName(now)
      ensures reading == old(reading)
    {
      var task := NewTask(title);
      tasks := tasks + [task];
      RenderTask(task);
      RefreshExportLink(now);
    }

    /**
     * `_onClickClear` and the `reset` handler: the collection and the list
     * become empty and the export link is disabled; its blob is left as it was.
     */
    method ClickClear(now: nat)
      requires Valid()
      modifies this
      ensures Valid()
      ensures tasks == [] && rendered == [] && !exportEnabled
      ensures snapshot == old(snapshot) && download == old(download)
      ensures idCounter == old(idCounter) && reading == old(reading)
    {
      tasks := [];
      OnReset(now);
    }

    /**
     * The collection's removal of the task at `k` and its `remove` handler:
     * the task leaves the collection, its item `#task-<id>` leaves the list,
     * and the export link is refreshed.
     */
    method RemoveAt(k: nat, now: nat)
      requires Valid() && k < |tasks|
      modifies this`tasks, this`rendered, this`exportEnabled, this`snapshot, this`download
      ensures Valid()
      ensures tasks == old(tasks)[..k] + old(tasks)[k + 1..]
      ensures rendered == old(rendered)[..k] + old(rendered)[k + 1..]
      ensures forall t :: t in tasks <==> t in old(tasks) && t.id != old(tasks)[k].id
      ensures tasks == [] ==> snapshot == old(snapshot) && download == old(download)
      ensures tasks != [] ==> snapshot == tasks && download == FileName(now)
    {
      var id := tasks[k].id;
      RemoveFirstAt(rendered, k);
      RemoveKeepsRenderedInStep(tasks, k);
      RemoveKeepsOthers(tasks, k);
      tasks := tasks[..k] + tasks[k + 1..];
      rendered := RemoveFirst(rendered, id);
      RefreshExportLink(now);
    }

    /**
     * `_onClickRemove`: the task with that id leaves the collection and only
     * its item leaves the list; an id that no task has changes nothing.
     */
    method ClickRemove(id: nat, now: nat)
      requires Valid()
      modifies this
      ensures Valid()
      ensures forall t :: t in tasks <==> t in old(tasks) && t.id != id
      ensures idCounter == old(idCounter) && reading == old(reading)
      ensures IndexOfId(old(tasks), id).None? ==>
                tasks == old(tasks) && rendered == old(rendered) && exportEnabled == old(exportEnabled)
                && snapshot == old(snapshot) && download == old(download)
      ensures IndexOfId(old(tasks), id).Some? ==>
                var k := IndexOfId(old(tasks), id).value;
                && tasks == old(tasks)[..k] + old(tasks)[k + 1..]
                && rendered == old(rendered)[..k] + old(rendered)[k + 1..]
                && (tasks == [] ==> snapshot == old(snapshot) && download == old(download))
                && (tasks != [] ==> snapshot == tasks && download == FileName(now))
    {
      var found := IndexOfId(tasks, id);
      if found.Some? {
        RemoveAt(found.value, now);
      }
    }

    /**
     * `_onClickImport`: a file that fails the check raises its alert and is
     * not read; a valid file is read as text, unless the reader is still busy
     * with an earlier read, in which case the browser throws and nothing is read.
     */
    method ClickImport(file: Option<ImportFile>) returns (r: ImportStart)
      requires Valid()
      modifies this`reading
      ensures Valid()
      ensures Validate(file).Fail? ==> r == Rejected(Validate(file).alert) && reading == old(reading)
      ensures Validate(file).Pass? && old(reading).Some? ==> r == ReaderBusy && reading == old(reading)
      ensures Validate(file).Pass? && old(reading).None? ==> r == ReadStarted && reading == file
    {
      var check := Validate(file);
      if check.Fail? {
        return Rejected(check.alert);
      }
      if reading.Some? {
        return ReaderBusy;
      }
      reading := file;
      r := ReadStarted;
    }

    /**
     * The reader's `error` event, for which the view has no handler: the read
     * is over, so the next import click can start a new one, and nothing else
     * changes.
     */
    method ReaderError()
      requires Valid() && reading.Some?
      modifies this`reading
      ensures Valid() && reading == None
    {
      reading := None;
    }

    /**
     * The reader's `load` handler and `_import`: text that does not parse
     * raises an alert and changes nothing else; parsed records replace the
     * collection, in order, as tasks with fresh ids, and the list is rebuilt.
     */
    method ReaderLoad(parsed: Parse, now: nat) returns (alert: Option<Alert>)
      requires Valid() && reading.Some?
      modifies this
      ensures Valid() && reading == None
      ensures parsed.Malformed? ==>
                && alert == Some(CorruptedFile)
                && tasks == old(tasks) && rendered == old(rendered) && idCounter == old(idCounter)
                && exportEnabled == old(exportEnabled) && snapshot == old(snapshot) && download == old(download)
      ensures parsed.Records? ==>
                && alert == None
                && idCounter == old(idCounter) + |parsed.records|
                && tasks == Imported(parsed.records, old(idCounter))
                && (forall t | t in tasks :: old(idCounter) < t.id)
                && rendered == Ids(tasks)
                && (tasks == [] ==> snapshot == old(snapshot) && download == old(download))
                && (tasks != [] ==> snapshot == tasks && download == FileName(now))
    {
      reading := None;
      match parsed
      case Malformed =>
        alert := Some(CorruptedFile);
      case Records(records) =>
        var created: seq<Task> := [];
        for i := 0 to |records|
          invariant idCounter == old(idCounter) + i
          invariant created == Imported(records[..i], old(idCounter))
          invariant tasks == old(tasks) && reading == None
          invariant snapshot == old(snapshot) && download == old(download)
        {
          var task := NewTask(TitleOf(records[i]));
          created := created + [task];
        }
        assert records[..|records|] == records;
        ImportedTasks(records, old(idCounter));
        tasks := created;
        OnReset(now);
        alert := None;
    }
  }

  /** Add two tasks, remove the first, then clear. */
  method AddRemoveClear() {
    var view := new TaskView(0);
    view.Submit("Buy milk", 1000);
    view.Submit("Walk dog", 1001);
    assert view.tasks == [Task(1, "Buy milk"), Task(2, "Walk dog")];
    assert view.exportEnabled && view.snapshot == view.tasks;
    view.ClickRemove(1, 1002);
    assert view.tasks == [Task(2, "Walk dog")] && view.rendered == [2];
    view.ClickClear(1003);
    assert view.tasks == [] && !view.exportEnabled;
  }

  /** A wrongly named file is not read; a corrupted export leaves the tasks alone. */
  method ImportByName(view: TaskView, now: nat)
    requires view.Valid() && view.reading == None
    modifies view
  {
    ghost var before := view.tasks;
    var rejected := view.ClickImport(Some(ImportFile("othername.json")));
    assert rejected == Rejected(ChooseExportedFile) && view.reading == None;
    var started := view.ClickImport(Some(ImportFile("mytask1234.json")));
    assert started == ReadStarted;
    var alert := view.ReaderLoad(Malformed, now);
    assert alert == Some(CorruptedFile) && view.tasks == before;
  }
}
