# FileAPI widgets in Dafny

This project models the two browser widgets of the FileAPI repository. It is a
model of their own logic, with the DOM, the file reader, blobs and JSON taken
as abstract inputs and outputs.

- **Task list** (`scripts/app2.js`, module `TaskList`). A view holds an ordered
  collection of `(id, title)` tasks. It also holds the rendered list (the ids
  of the `<li id="task-<id>">` items), the export link's enabled state, the
  tasks serialized in the export blob, the link's download name, and the import
  reader's state. Ids come from a counter that only goes up. Add, remove, clear
  and import are methods of `TaskView`. Each one keeps `Valid()`:
  - the rendered list equals the collection's ids;
  - ids increase along the collection and none is above the counter;
  - the export link is enabled exactly when the collection is non-empty, and
    then it carries the current contents under a name with the `mytask` prefix.

  The import-file check (`Validate`) and the export name (`FileName`) are pure
  functions. `FileName` is proved to be `mytask`, then the timestamp's decimal
  digits, then `.json`, and to pass the check.
- **Image preview** (`scripts/app.js`, module `ImagePreview`). `GetFiles` keeps
  the JPEG files of a selection, in order. It is proved equal to the filter
  `JpegOnly`, which keeps each JPEG file exactly as often as it was selected.
  - `FileModel` tracks its reader's state (Pending, Loading, Ready, Failed)
    and the last data URL it read.
  - `FileCollection.ReadFiles` starts one read per model when none is loading.
  - `FileView` resets the collection on a new selection. A click empties the
    preview area and then either alerts or starts the reads. A completed read
    stores its result and appends exactly one preview entry.

The model follows the code on these points, where a reader might expect otherwise:

- `MyTask.initialize` (`scripts/app2.js:10-17`) runs after Backbone has stored
  a record's fields, so it overwrites an imported `id` with a new counter
  value. Imported ids are therefore never trusted. `ReimportKeepsTitles` shows
  that re-importing an export gives back its titles in order, but with new ids.
  The JSON is therefore not byte-for-byte the same.
- `_onClickButton` (`scripts/app.js:164-176`) empties the preview area before
  it checks for an empty collection, so the area is emptied on both paths.
- The preview view does not listen to the collection's `reset` event. A new
  selection therefore leaves the preview area as it was (`OnFileChange`
  ensures `preview == old(preview)`).
- On an empty collection, `refreshExportLink` (`scripts/app2.js:57-69`) only
  adds the disabled class. The old blob and download name stay bound to the
  link, and the model keeps them (`ClickClear` leaves `snapshot` unchanged).

The model also captures the file reader's rules:

- A reader that is still loading refuses a new read, because the browser
  throws. In the task list, a second import click while a read is in progress
  gives `ReaderBusy`.
- In the preview, the exception from a model that is still loading ends
  `readFiles`. `ReadFiles` therefore starts a read for every model before the
  first one still loading. When no model is loading (the first click after a
  selection, or a click after all reads completed), that is one read per model.
- Clicking again re-reads models that are Ready or Failed. A model is never returned to
  Pending: a new selection replaces the models instead.
- A read can fail. The reader is then done and fires `error` and `loadend`,
  but not `load`. Neither widget listens to those events, so nothing is shown.
  In the task list the reader is free again (`TaskView.ReaderError`). In the
  preview the model is Failed, keeps its old data URL, adds no entry, and the
  next click reads it again (`FileView.OnReaderError`).
- A read of a model that a new selection discarded still completes
  (`FileModel.Load`). The collection no longer forwards its event, so it adds
  no preview entry.

Three client methods, `TaskList.AddRemoveClear`, `TaskList.ImportByName` and
`ImagePreview.SelectAndPreview`, walk through short sequences of user actions
using only the contracts.

## Model

| member | source | states |
|---|---|---|
| `TaskList.StartsWith` | scripts/app2.js:235 | the anchored test `/^mytask/` holds exactly when the name has that prefix |
| `TaskList.Validate` | scripts/app2.js:230-240 | no file fails with the "choose a file" alert; a name without the `mytask` prefix fails with the "choose an exported file" alert; the check passes exactly when a file is given and its name has the prefix |
| `TaskList.Decimal` | scripts/app2.js:157 | the timestamp's text is a non-empty string of decimal digits without a leading zero (unless it is 0) |
| `TaskList.DecimalRoundTrip` | scripts/app2.js:157 | reading the decimal text of a timestamp back gives the timestamp |
| `TaskList.FileName` | scripts/app2.js:156-158 | every export name starts with `mytask` and ends with `.json`, and what lies between is decimal digits that read back as the timestamp |
| `TaskList.ExportedNameIsAccepted` | scripts/app2.js:156-158 | every export name passes the import check |
| `TaskList.ExportedNamesDiffer` | scripts/app2.js:157 | exports at different timestamps get different names |
| `TaskList.IndexOfId` | scripts/app2.js:197 | the lookup finds the first task with that id, or reports that no task has it |
| `TaskList.RemoveFirstAt` | scripts/app2.js:90-91 | removing `#task-<id>` drops exactly the first rendered item with that id |
| `TaskList.RemoveKeepsRenderedInStep` | scripts/app2.js:89-94 | removing a task from the collection and its item from the list keeps the list equal to the collection's ids |
| `TaskList.RemoveKeepsOthers` | scripts/app2.js:197-200 | removing a task keeps the other tasks in order, and exactly the tasks with other ids remain |
| `TaskList.ImportedTasks` | scripts/app2.js:15-16 | an import keeps the records' titles in order, and every new id is above the counter and increases along the list |
| `TaskList.ReimportKeepsTitles` | scripts/app2.js:250-252 | importing an exported snapshot gives back its titles in order, and no new id equals an exported id |
| `TaskList.TaskView.constructor` | scripts/app2.js:39-51 | a new view has an empty collection and list and a disabled export link, and no read is in progress |
| `TaskList.TaskView.NewTask` | scripts/app2.js:10-17 | a new task takes the next counter value as its id |
| `TaskList.TaskView.RenderTask` | scripts/app2.js:117-123 | rendering appends one item, for that task, at the end of the list |
| `TaskList.TaskView.MakeBlob` | scripts/app2.js:161-169 | the blob serializes the current collection |
| `TaskList.TaskView.RefreshExportLink` | scripts/app2.js:57-69 | the link is enabled iff the collection is non-empty; when enabled it carries the current contents and a name stamped with the time; when disabled the old blob and name stay |
| `TaskList.TaskView.OnReset` | scripts/app2.js:79-86 | after a reset the list is rebuilt to the collection's ids in order, and the export link is refreshed |
| `TaskList.TaskView.Submit` | scripts/app2.js:172-182 | adding appends one task with the title and a fresh id, appends one item for it at the end of the list, and enables the export of the whole collection |
| `TaskList.TaskView.ClickClear` | scripts/app2.js:185-190 | clearing empties the collection and the list and disables the export link |
| `TaskList.TaskView.RemoveAt` | scripts/app2.js:89-94 | removing the task at a position drops it and only its item from the list, keeps the rest in order, and refreshes the export link |
| `TaskList.TaskView.ClickRemove` | scripts/app2.js:193-201 | removing by id drops that task and only its item, keeps everything else in order, and refreshes the export; an unknown id changes nothing |
| `TaskList.TaskView.ClickImport` | scripts/app2.js:218-227 | a file that fails the check raises its alert and is not read; a valid file is read, unless the reader is busy |
| `TaskList.TaskView.ReaderLoad` | scripts/app2.js:243-256 | unparsable text raises the corrupted-file alert and changes nothing; parsed records replace the collection in order with fresh ids, and the list equals the collection |
| `TaskList.TaskView.ReaderError` | scripts/app2.js:96-99 | a failed read has no handler: the reader is free again, so a later import click starts a new read, and the collection, list and export are unchanged |
| `ImagePreview.JpegOnly` | scripts/app.js:128-145 | the filter never lengthens the selection and keeps only `image/jpeg` files |
| `ImagePreview.JpegOnlyAppend` | scripts/app.js:132-143 | filtering preserves the selection's order (it distributes over concatenation) |
| `ImagePreview.JpegOnlyCounts` | scripts/app.js:136-142 | each JPEG file is kept exactly as often as selected, and every other file is dropped |
| `ImagePreview.GetFiles` | scripts/app.js:128-145 | the loop's result is exactly the selection's JPEG files, in order |
| `ImagePreview.FileModel.constructor` | scripts/app.js:13-19 | a new model holds its file and an empty data URL, and nothing has been read |
| `ImagePreview.FileModel.ReadFile` | scripts/app.js:33-38 | a read starts unless one is already loading; either way the model is then loading |
| `ImagePreview.FileModel.Load` | scripts/app.js:26-29 | a completed read makes the model ready and stores the result as its data URL |
| `ImagePreview.FileModel.Fail` | scripts/app.js:25-28 | a failed read has no handler: the model's reader is done, so a later `ReadFile` starts again, and the data URL stays |
| `ImagePreview.FileCollection.constructor` | scripts/app.js:71 | a new collection is empty |
| `ImagePreview.FileCollection.Reset` | scripts/app.js:151 | reset replaces every model with a new pending model for each file, in order |
| `ImagePreview.FileCollection.ReadFiles` | scripts/app.js:48-54 | reads start in order up to the first model still loading; when none is loading, every model starts one read; data URLs are untouched |
| `ImagePreview.FileView.constructor` | scripts/app.js:67-75 | a new view has an empty collection and an empty preview area |
| `ImagePreview.FileView.RenderPreview` | scripts/app.js:97-106 | rendering appends one entry with the model's data URL, file name and size |
| `ImagePreview.FileView.ResetCollection` | scripts/app.js:148-152 | the collection becomes new pending models of the given files |
| `ImagePreview.FileView.OnFileChange` | scripts/app.js:155-161 | a selection replaces the whole collection with new pending models of its JPEG files in order, and leaves the preview area alone |
| `ImagePreview.FileView.OnClickButton` | scripts/app.js:164-176 | the preview area is emptied first; an empty collection raises the alert and starts no read; otherwise reads start as in `ReadFiles` |
| `ImagePreview.FileView.OnReaderLoad` | scripts/app.js:26-29 | a completed read sets that model's data URL, makes it ready, appends exactly one preview entry showing it, and leaves the other models alone |
| `ImagePreview.FileView.OnReaderError` | scripts/app.js:20-29 | a failed read leaves that model's data URL as it was, appends nothing to the preview area, makes the model failed (so the next click reads it again), and leaves the other models alone |

## Left out

- DOM manipulation, jQuery and the HTML templates. The rendered list is modelled as a sequence of ids and the preview area as a sequence of entries. HTML escaping and markup are not modelled.
- The file reader's asynchrony. A completion or a failure is a method call, and a completion takes the result as an input. A read that never ends leaves its model loading. The `abort` event and the reader's `error` value are not modelled.
- Blob and object-URL creation. The export blob is modelled as the tasks it serializes, and its URL is not modelled.
- JSON parsing and serialization. The parse outcome is an input: either malformed, or an array of records with an optional id and an optional title. JSON values that are not arrays, non-string titles, and extra record fields (which Backbone would keep and export again) are not modelled.
- `TaskList.TaskView.ReaderLoad`: creates one task per record. In Backbone 1.1, `reset` adds with `merge: false` and skips a record whose own `id` equals an id already given to a task earlier in the same reset. Such an import yields fewer tasks than records, and the ensures `tasks == Imported(parsed.records, old(idCounter))` does not hold for it. Which Backbone version the page loads is not part of this model.
- Backbone's event dispatch. Handlers are called directly.
- The string-to-number coercion of the `data-id` attribute in `collection.get`. The removed id is given as a number.
- `TaskList.TaskView.NewTask`: steps the counter by exactly one. `_.uniqueId` is a global counter that Backbone's client ids also draw from, so real ids can skip values. Every property proved relies only on the counter increasing.
- The clock. `+new Date` is given as a `now` parameter. Timestamps of 10^21 or more, which JavaScript prints in exponent form, are not modelled.
- The IE10 `msSaveBlob` branch of `_onClickExport` (`scripts/app2.js:204-215`), which is platform plumbing.
- Alerts are returned as values instead of shown.
- The `hasOwnProperty`/`length` guard in `_getFiles`, which every entry of a file list passes when iterated by index.
- Page bootstrapping (`scripts/app2.js:260-263`, `scripts/app.js:180-183`).
