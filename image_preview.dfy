/**
 * The image-preview widget (FileModel, FileCollection, FileView of scripts/app.js).
 *
 * A selection of files is filtered down to JPEG images, each wrapped in a
 * model that owns a file reader. A click on the preview button empties the
 * preview area and asks every model to read its file as a data URL; each
 * completed read stores the URL on its model and appends one entry to the
 * preview area. The DOM is abstract: the preview area is the sequence of
 * entries it shows. A read's completion and its result are inputs.
 *
 * A model's read state is its reader's: Pending (nothing read yet), Loading
 * (a read is in progress), Ready (the last read has completed) and Failed
 * (the last read ended in the reader's `error` event, which nothing handles).
 * Starting a read while one is in progress makes the browser throw, and the
 * exception ends the loop that was starting reads; from any other state a
 * read starts again.
 */
module ImagePreview {
  import opened Wrappers

  /** The only MIME type the widget previews. */
  const Jpeg: string := "image/jpeg"

  /** A selected file: what the widget reads of the browser's File object. */
  datatype LocalFile = LocalFile(name: string, mimeType: string, size: nat)

  datatype ReadState = Pending | Loading | Ready | Failed

  /** One rendered preview: the image source, the file's name and its size in bytes. */
  datatype PreviewEntry = PreviewEntry(src: string, name: string, size: nat)

  /** The alert raised by a click with nothing selected. */
  datatype Alert = SelectFilesFirst

  // ---------------------------------------------------------------------------
  // The file filter

  /** The JPEG files of a selection, in selection order. */
  function JpegOnly(files: seq<LocalFile>): (kept: seq<LocalFile>)
    ensures |kept| <= |files|
    ensures forall f | f in kept :: f.mimeType == Jpeg
  {
    if files == [] then []
    else (if files[0].mimeType == Jpeg then [files[0]] else []) + JpegOnly(files[1..])
  }

  /** Filtering a selection piecewise gives the same files in the same order. */
  lemma {:induction false} JpegOnlyAppend(a: seq<LocalFile>, b: seq<LocalFile>)
    ensures JpegOnly(a + b) == JpegOnly(a) + JpegOnly(b)
  {
    if a != [] {
      assert (a + b)[1..] == a[1..] + b;
      JpegOnlyAppend(a[1..], b);
    } else {
      assert a + b == b;
    }
  }

  /**
   * Each JPEG file of the selection is kept as often as it was selected, and
   * every other file is dropped.
   */
  lemma {:induction false} JpegOnlyCounts(files: seq<LocalFile>, f: LocalFile)
    ensures multiset(JpegOnly(files))[f] == if f.mimeType == Jpeg then multiset(files)[f] else 0
  {
    if files != [] {
      assert files == [files[0]] + files[1..];
      JpegOnlyCounts(files[1..], f);
    }
  }

  /**
   * `_getFiles`: walks the selection and pushes every JPEG file, so the
   * result is the selection's JPEG files in order.
   */
  method GetFiles(files: seq<LocalFile>) returns (kept: seq<LocalFile>)
    ensures kept == JpegOnly(files)
  {
    kept := [];
    for i := 0 to |files|
      invariant kept == JpegOnly(files[..i])
    {
      JpegOnlyAppend(files[..i], [files[i]]);
      assert files[..i + 1] == files[..i] + [files[i]];
      if files[i].mimeType == Jpeg {
        kept := kept + [files[i]];
      }
    }
    assert files[..|files|] == files;
  }

  // ---------------------------------------------------------------------------
  // Models, the collection and the view

  /** `FileModel`: one selected file, its reader's state and the last data URL read. */
  class FileModel {
    const file: LocalFile
    var dataURL: string
    var state: ReadState

    /** `initialize`: a model with the file, an empty data URL and a fresh reader. */
    constructor (file: LocalFile)
      ensures this.file == file && dataURL == "" && state == Pending
    {
      this.file := file;
      dataURL := "";
      state := Pending;
    }

    /**
     * `readFile`: starts reading the file as a data URL. A reader still
     * loading refuses (the browser throws) and nothing changes.
     */
    method ReadFile() returns (started: bool)
      modifies this
      ensures started <==> old(state) != Loading
      ensures state == Loading && dataURL == old(dataURL)
    {
      started := state != Loading;
      if started {
        state := Loading;
      }
    }

    /** The reader's `load` handler: the result becomes the model's data URL. */
    method Load(result: string)
      requires state == Loading
      modifies this
      ensures state == Ready && dataURL == result
    {
      dataURL := result;
      state := Ready;
    }

    /**
     * The reader's `error` event, for which the model has no handler: the
     * read is over and the data URL stays as it was.
     */
    method Fail()
      requires state == Loading
      modifies this
      ensures state == Failed && dataURL == old(dataURL)
    {
      state := Failed;
    }
  }

  /** `FileCollection`: the models of the current selection, in order. */
  class FileCollection {
    var models: seq<FileModel>

    /** Every model occurs once. */
    ghost predicate Valid()
      reads this
    {
      forall i, j | 0 <= i < j < |models| :: models[i] != models[j]
    }

    constructor ()
      ensures Valid() && models == []
    {
      models := [];
    }

    /** `reset`: the old models are dropped and each file gets a new pending model. */
    method Reset(files: seq<LocalFile>)
      modifies this
      ensures Valid()
      ensures |models| == |files|
      ensures forall i | 0 <= i < |models| ::
                fresh(models[i]) && models[i].file == files[i] && models[i].dataURL == "" && models[i].state == Pending
    {
      var created: seq<FileModel> := [];
      for i := 0 to |files|
        invariant |created| == i
        invariant forall j | 0 <= j < i ::
                    fresh(created[j]) && created[j].file == files[j] && created[j].dataURL == "" && created[j].state == Pending
        invariant forall j, l | 0 <= j < l < i :: created[j] != created[l]
      {
        var model := new FileModel(files[i]);
        created := created + [model];
      }
      models := created;
    }

    /**
     * `readFiles`: starts a read on each model in order. The first model
     * still loading throws and ends the loop, so `started` is the position of
     * that model, or the number of models when none is loading; the models
     * before it are now loading and the rest are as they were.
     */
    method ReadFiles() returns (started: nat)
      requires Valid()
      modifies models
      ensures started <= |models|
      ensures forall i | 0 <= i < started :: old(models[i].state) != Loading && models[i].state == Loading
      ensures started < |models| ==> old(models[started].state) == Loading
      ensures forall i | started <= i < |models| :: models[i].state == old(models[i].state)
      ensures forall i | 0 <= i < |models| :: models[i].dataURL == old(models[i].dataURL)
      ensures (forall i | 0 <= i < |models| :: old(models[i].state) != Loading) ==> started == |models|
    {
      started := 0;
      while started < |models|
        invariant started <= |models|
        invariant forall i | 0 <= i < started :: old(models[i].state) != Loading && models[i].state == Loading
        invariant forall i | started <= i < |models| :: models[i].state == old(models[i].state)
        invariant forall i | 0 <= i < |models| :: models[i].dataURL == old(models[i].dataURL)
      {
        var ok := models[started].ReadFile();
        if !ok {
          return;
        }
        started := started + 1;
      }
    }
  }

  /** `FileView`: the file input, the preview button and the preview area. */
  class FileView {
    const collection: FileCollection
    /** The entries shown in the preview area, in the order they were appended. */
    var preview: seq<PreviewEntry>

    ghost predicate Valid()
      reads this, collection
    {
      collection.Valid()
    }

    /** `initialize`: an empty collection and an empty preview area. */
    constructor ()
      ensures Valid() && fresh(collection)
      ensures collection.models == [] && preview == []
    {
      collection := new FileCollection();
      preview := [];
    }

    /** `renderPreview`: one entry for the model is appended to the preview area. */
    method RenderPreview(model: FileModel)
      modifies this`preview
      ensures preview == old(preview) + [PreviewEntry(model.dataURL, model.file.name, model.file.size)]
    {
      preview := preview + [PreviewEntry(model.dataURL, model.file.name, model.file.size)];
    }

    /** `_getCollection`: the collection is reset to new models of the given files. */
    method ResetCollection(files: seq<LocalFile>)
      requires Valid()
      modifies collection
      ensures Valid()
      ensures |collection.models| == |files|
      ensures forall i | 0 <= i < |files| ::
                && fresh(collection.models[i]) && collection.models[i].file == files[i]
                && collection.models[i].dataURL == "" && collection.models[i].state == Pending
    {
      collection.Reset(files);
    }

    /**
     * `_onFileChange`: the whole collection is replaced by new pending models
     * of the selection's JPEG files, in order. The preview area is left as it is.
     */
    method OnFileChange(files: seq<LocalFile>)
      requires Valid()
      modifies collection
      ensures Valid() && preview == old(preview)
      ensures |collection.models| == |JpegOnly(files)|
      ensures forall i | 0 <= i < |collection.models| ::
                && fresh(collection.models[i]) && collection.models[i].file == JpegOnly(files)[i]
                && collection.models[i].dataURL == "" && collection.models[i].state == Pending
    {
      var kept := GetFiles(files);
      ResetCollection(kept);
    }

    /**
     * `_onClickButton`: the preview area is emptied first. With nothing
     * selected the alert is raised and no read starts; otherwise the
     * collection starts its reads (one per model when none is loading).
     */
    method OnClickButton() returns (alert: Option<Alert>, started: nat)
      requires Valid()
      modifies this`preview, collection.models
      ensures Valid() && preview == []
      ensures alert == Some(SelectFilesFirst) <==> collection.models == []
      ensures alert == None || alert == Some(SelectFilesFirst)
      ensures started <= |collection.models|
      ensures forall i | 0 <= i < started ::
                old(collection.models[i].state) != Loading && collection.models[i].state == Loading
      ensures started < |collection.models| ==> old(collection.models[started].state) == Loading
      ensures forall i | started <= i < |collection.models| ::
                collection.models[i].state == old(collection.models[i].state)
      ensures forall i | 0 <= i < |collection.models| ::
                collection.models[i].dataURL == old(collection.models[i].dataURL)
      ensures (forall i | 0 <= i < |collection.models| :: old(collection.models[i].state) != Loading) ==>
                started == |collection.models|
    {
      preview := [];
      if |collection.models| == 0 {
        return Some(SelectFilesFirst), 0;
      }
      started := collection.ReadFiles();
      alert := None;
    }

    /**
     * A model's read completes (its `load` handler, then the collection
     * forwarding `readerLoad` to `renderPreview`): the model holds the result
     * and exactly one entry showing it is appended to the preview area.
     */
    method OnReaderLoad(i: nat, result: string)
      requires Valid() && i < |collection.models| && collection.models[i].state == Loading
      modifies collection.models[i], this`preview
      ensures Valid()
      ensures collection.models[i].state == Ready && collection.models[i].dataURL == result
      ensures preview == old(preview) + [PreviewEntry(result, collection.models[i].file.name, collection.models[i].file.size)]
      ensures forall j | 0 <= j < |collection.models| && j != i ::
                collection.models[j].state == old(collection.models[j].state)
                && collection.models[j].dataURL == old(collection.models[j].dataURL)
    {
      var model := collection.models[i];
      model.Load(result);
      RenderPreview(model);
    }

    /**
     * A model's read fails: the model's reader is done without a result, its
     * data URL stays, nothing is appended to the preview area, and the other
     * models are left alone.
     */
    method OnReaderError(i: nat)
      requires Valid() && i < |collection.models| && collection.models[i].state == Loading
      modifies collection.models[i]
      ensures Valid() && preview == old(preview)
      ensures collection.models[i].state == Failed && collection.models[i].dataURL == old(collection.models[i].dataURL)
      ensures forall j | 0 <= j < |collection.models| && j != i ::
                collection.models[j].state == old(collection.models[j].state)
                && collection.models[j].dataURL == old(collection.models[j].dataURL)
    {
      collection.models[i].Fail();
    }
  }

  /** Select files, preview them, and complete both reads. */
  method SelectAndPreview(a: LocalFile, b: LocalFile, c: LocalFile)
    requires a.mimeType == Jpeg && b.mimeType != Jpeg && c.mimeType == Jpeg
  {
    var view := new FileView();
    var alert, started := view.OnClickButton();
    assert alert == Some(SelectFilesFirst) && started == 0;
    view.OnFileChange([a, b, c]);
    assert [a, b, c][1..] == [b, c] && [b, c][1..] == [c] && [c][1..] == [];
    assert JpegOnly([c]) == [c] && JpegOnly([b, c]) == [c];
    assert JpegOnly([a, b, c]) == [a, c];
    alert, started := view.OnClickButton();
    assert alert == None && started == 2;
    view.OnReaderError(1);
    view.OnReaderLoad(0, "data:a");
    assert view.preview == [PreviewEntry("data:a", a.name, a.size)];
    alert, started := view.OnClickButton();
    assert alert == None && started == 2;
    view.OnReaderLoad(1, "data:c");
    assert view.preview == [PreviewEntry("data:c", c.name, c.size)];
  }
}
