/**
 * The settings window's logic: the image list it loads at start-up, the
 * validation of the intensity entry, and the batch run of "Apply Settings",
 * whose file-system effects are recorded as an ordered trace of events.
 */
module Gui {
  import opened Imaging
  import opened Paths
  import opened Transforms
  import opened Pipeline

  /** The folder the augmented copies go to, under the working directory. */
  const AugmentedFolderName: string := "Augmented_images"

  /**
   * The intensity entry after `float(...)` (None when it does not parse) is
   * accepted exactly when it lies in [0.1, 5.0], both ends included.
   */
  function Validate(entry: Option<real>): (r: Option<real>)
    ensures r.Some? <==> entry.Some? && 0.1 <= entry.value <= 5.0
    ensures r.Some? ==> r == entry
  {
    if entry.Some? && 0.1 <= entry.value <= 5.0 then entry else None
  }

  /** What a run does to the outside world, in order. */
  datatype Event =
    | MadeFolder(path: string)                        // os.mkdir
    | Saved(path: string, format: Format, image: Image)  // image.save
    | Applied(stage: Stage)                           // one stage rebinds the working copy
    | OpenFailed(path: string)                        // Image.open raised

  /** `save_image`: the write it performs, with the format its rule picks. */
  function SaveImage(image: Image, path: string): (e: Event)
    ensures e.Saved? && e.path == path && e.image == image
    ensures image.mode == RGBA ==> e.format == PNG
    ensures e.format == JPEG <==> image.mode != RGBA && (EndsWith(Lower(path), ".jpg") || EndsWith(Lower(path), ".jpeg"))
  {
    Saved(path, SaveFormat(image.mode, path), image)
  }

  /** One event per stage that ran, in order. */
  function AppliedEvents(stages: seq<Stage>): seq<Event>
  {
    seq(|stages|, i requires 0 <= i < |stages| => Applied(stages[i]))
  }

  /**
   * One iteration of the batch loop: the unmodified original is saved first,
   * then the enabled stages rebind the copy in order, then the result is saved
   * as the augmented copy.
   */
  function ItemEvents(lib: Library, c: Config, d: ImageDraws, imagesFolder: string, augmentedFolder: string,
                      name: string, image: Image): seq<Event>
    requires 0.1 <= c.intensity
  {
    [SaveImage(image, Join(imagesFolder, OriginalName(name)))]
      + AppliedEvents(EnabledStages(c.toggles))
      + [SaveImage(Augmented(lib, image, c, d), Join(augmentedFolder, AugmentedName(name)))]
  }

  /** Indexing into one element, a middle part and one element. */
  lemma Bracketed<T>(first: T, middle: seq<T>, last: T)
    ensures var r := [first] + middle + [last];
      |r| == |middle| + 2 && r[0] == first && r[|r| - 1] == last &&
      forall i :: 1 <= i < |r| - 1 ==> r[i] == middle[i - 1]
  {
  }

  /** The original goes out first and untouched; the last write is the pipeline's output. */
  lemma ItemEventsOrder(lib: Library, c: Config, d: ImageDraws, imagesFolder: string, augmentedFolder: string,
                        name: string, image: Image)
    requires 0.1 <= c.intensity
    ensures var r := ItemEvents(lib, c, d, imagesFolder, augmentedFolder, name, image);
      |r| == |EnabledStages(c.toggles)| + 2 &&
      r[0] == Saved(Join(imagesFolder, OriginalName(name)), SaveFormat(image.mode, Join(imagesFolder, OriginalName(name))), image) &&
      (forall i :: 1 <= i < |r| - 1 ==> r[i] == Applied(EnabledStages(c.toggles)[i - 1])) &&
      r[|r| - 1].Saved? && r[|r| - 1].path == Join(augmentedFolder, AugmentedName(name)) &&
      r[|r| - 1].image == Augmented(lib, image, c, d)
  {
    var stages := EnabledStages(c.toggles);
    var middle := AppliedEvents(stages);
    assert forall i :: 0 <= i < |stages| ==> middle[i] == Applied(stages[i]);
    Bracketed(SaveImage(image, Join(imagesFolder, OriginalName(name))), middle,
              SaveImage(Augmented(lib, image, c, d), Join(augmentedFolder, AugmentedName(name))));
  }

  /** What the loop does with one file: process the image it opened, or stop at a file that fails to open. */
  datatype Step = Process(name: string, image: Image, draws: ImageDraws) | Stop(path: string)

  /**
   * The control flow of the loop over the image files, in list order: an
   * image that cannot be opened raises out of the loop and ends the run there.
   */
  function BatchSteps(openImage: string -> Option<Image>, imagesFolder: string,
                      files: seq<string>, draws: seq<ImageDraws>): seq<Step>
    requires |draws| == |files|
  {
    if files == [] then []
    else
      var path := Join(imagesFolder, files[0]);
      match openImage(path)
      case None => [Stop(path)]
      case Some(image) => [Process(files[0], image, draws[0])] + BatchSteps(openImage, imagesFolder, files[1..], draws[1..])
  }

  /** The events of one step. */
  function StepEvents(lib: Library, c: Config, imagesFolder: string, augmentedFolder: string, s: Step): seq<Event>
    requires 0.1 <= c.intensity
  {
    match s
    case Process(name, image, d) => ItemEvents(lib, c, d, imagesFolder, augmentedFolder, name, image)
    case Stop(path) => [OpenFailed(path)]
  }

  /** The events of a run, step after step. */
  function RunEvents(lib: Library, c: Config, imagesFolder: string, augmentedFolder: string, steps: seq<Step>): seq<Event>
    requires 0.1 <= c.intensity
  {
    if steps == [] then []
    else StepEvents(lib, c, imagesFolder, augmentedFolder, steps[0]) + RunEvents(lib, c, imagesFolder, augmentedFolder, steps[1..])
  }

  lemma {:induction false} RunEventsAppend(lib: Library, c: Config, imagesFolder: string, augmentedFolder: string,
                                           a: seq<Step>, b: seq<Step>)
    requires 0.1 <= c.intensity
    ensures RunEvents(lib, c, imagesFolder, augmentedFolder, a + b)
         == RunEvents(lib, c, imagesFolder, augmentedFolder, a) + RunEvents(lib, c, imagesFolder, augmentedFolder, b)
  {
    if a == [] {
      assert a + b == b;
    } else {
      assert (a + b)[0] == a[0] && (a + b)[1..] == a[1..] + b;
      RunEventsAppend(lib, c, imagesFolder, augmentedFolder, a[1..], b);
      var x := StepEvents(lib, c, imagesFolder, augmentedFolder, a[0]);
      var y := RunEvents(lib, c, imagesFolder, augmentedFolder, a[1..]);
      var z := RunEvents(lib, c, imagesFolder, augmentedFolder, b);
      assert x + (y + z) == (x + y) + z;
    }
  }

  /** Every file of the list opens as an image. */
  predicate AllOpen(openImage: string -> Option<Image>, imagesFolder: string, files: seq<string>)
  {
    files == [] || (openImage(Join(imagesFolder, files[0])).Some? && AllOpen(openImage, imagesFolder, files[1..]))
  }

  /**
   * When every file opens, every file is processed exactly once, in list
   * order, with its own image and its own draws.
   */
  lemma {:induction false} EveryFileProcessedOnce(openImage: string -> Option<Image>, imagesFolder: string,
                                                  files: seq<string>, draws: seq<ImageDraws>)
    requires |draws| == |files| && AllOpen(openImage, imagesFolder, files)
    ensures var r := BatchSteps(openImage, imagesFolder, files, draws);
      |r| == |files| &&
      forall i :: 0 <= i < |files| ==>
        r[i].Process? && r[i].name == files[i] && r[i].draws == draws[i] &&
        openImage(Join(imagesFolder, files[i])) == Some(r[i].image)
  {
    if files != [] {
      EveryFileProcessedOnce(openImage, imagesFolder, files[1..], draws[1..]);
      var r := BatchSteps(openImage, imagesFolder, files, draws);
      var rest := BatchSteps(openImage, imagesFolder, files[1..], draws[1..]);
      assert r == [Process(files[0], openImage(Join(imagesFolder, files[0])).value, draws[0])] + rest;
      forall i | 1 <= i < |files|
        ensures r[i].Process? && r[i].name == files[i] && r[i].draws == draws[i] &&
          openImage(Join(imagesFolder, files[i])) == Some(r[i].image)
      {
        assert r[i] == rest[i - 1];
        assert files[1..][i - 1] == files[i] && draws[1..][i - 1] == draws[i];
      }
    }
  }

  /** A run over `a + b` is the run over `a` followed by the run over `b`, when all of `a` opens. */
  lemma {:induction false} BatchStepsAppend(openImage: string -> Option<Image>, imagesFolder: string,
                                            a: seq<string>, b: seq<string>, da: seq<ImageDraws>, db: seq<ImageDraws>)
    requires |da| == |a| && |db| == |b| && AllOpen(openImage, imagesFolder, a)
    ensures BatchSteps(openImage, imagesFolder, a + b, da + db)
         == BatchSteps(openImage, imagesFolder, a, da) + BatchSteps(openImage, imagesFolder, b, db)
  {
    if a == [] {
      assert a + b == b && da + db == db;
    } else {
      assert (a + b)[0] == a[0] && (da + db)[0] == da[0];
      assert (a + b)[1..] == a[1..] + b && (da + db)[1..] == da[1..] + db;
      BatchStepsAppend(openImage, imagesFolder, a[1..], b, da[1..], db);
    }
  }

  /**
   * The first file that cannot be opened ends the run: nothing after it in
   * the list is opened, transformed or saved.
   */
  lemma {:induction false} UnreadableFileEndsRun(openImage: string -> Option<Image>, imagesFolder: string,
                                                 files: seq<string>, draws: seq<ImageDraws>, k: nat)
    requires |draws| == |files| && k < |files|
    requires AllOpen(openImage, imagesFolder, files[..k])
    requires openImage(Join(imagesFolder, files[k])) == None
    ensures BatchSteps(openImage, imagesFolder, files, draws)
         == BatchSteps(openImage, imagesFolder, files[..k], draws[..k]) + [Stop(Join(imagesFolder, files[k]))]
  {
    if k == 0 {
      assert files[..k] == [];
    } else {
      var head, tail := files[..k], files[1..];
      assert head[0] == files[0] && head[1..] == tail[..k - 1] && tail[k - 1] == files[k];
      assert draws[..k][0] == draws[0] && draws[..k][1..] == draws[1..][..k - 1];
      UnreadableFileEndsRun(openImage, imagesFolder, tail, draws[1..], k - 1);
    }
  }

  /** From position `i` on, a file that opens is processed and the run goes on with the next one. */
  lemma BatchStepsOfOpened(openImage: string -> Option<Image>, imagesFolder: string,
                           files: seq<string>, draws: seq<ImageDraws>, i: nat, image: Image)
    requires |draws| == |files| && i < |files|
    requires openImage(Join(imagesFolder, files[i])) == Some(image)
    ensures BatchSteps(openImage, imagesFolder, files[i..], draws[i..])
         == [Process(files[i], image, draws[i])] + BatchSteps(openImage, imagesFolder, files[i + 1..], draws[i + 1..])
  {
    var fs, ds := files[i..], draws[i..];
    assert fs[0] == files[i] && ds[0] == draws[i];
    assert fs[1..] == files[i + 1..] && ds[1..] == draws[i + 1..];
  }

  /** From position `i` on, a file that does not open is the last step of the run. */
  lemma BatchStepsOfUnreadable(openImage: string -> Option<Image>, imagesFolder: string,
                               files: seq<string>, draws: seq<ImageDraws>, i: nat)
    requires |draws| == |files| && i < |files|
    requires openImage(Join(imagesFolder, files[i])) == None
    ensures BatchSteps(openImage, imagesFolder, files[i..], draws[i..]) == [Stop(Join(imagesFolder, files[i]))]
  {
    assert files[i..][0] == files[i];
  }

  /** The events of a run from the file at position `i` on, when that file opens: its events, then the rest of the run. */
  lemma RunEventsOfOpened(lib: Library, c: Config, openImage: string -> Option<Image>,
                          imagesFolder: string, augmentedFolder: string,
                          files: seq<string>, draws: seq<ImageDraws>, i: nat, image: Image)
    requires 0.1 <= c.intensity && |draws| == |files| && i < |files|
    requires openImage(Join(imagesFolder, files[i])) == Some(image)
    ensures RunEvents(lib, c, imagesFolder, augmentedFolder, BatchSteps(openImage, imagesFolder, files[i..], draws[i..]))
         == ItemEvents(lib, c, draws[i], imagesFolder, augmentedFolder, files[i], image)
          + RunEvents(lib, c, imagesFolder, augmentedFolder, BatchSteps(openImage, imagesFolder, files[i + 1..], draws[i + 1..]))
  {
    BatchStepsOfOpened(openImage, imagesFolder, files, draws, i, image);
    var steps := BatchSteps(openImage, imagesFolder, files[i..], draws[i..]);
    var rest := BatchSteps(openImage, imagesFolder, files[i + 1..], draws[i + 1..]);
    assert steps[0] == Process(files[i], image, draws[i]) && steps[1..] == rest;
  }

  /** The events of a run from the file at position `i` on, when that file does not open: the failure alone. */
  lemma RunEventsOfUnreadable(lib: Library, c: Config, openImage: string -> Option<Image>,
                              imagesFolder: string, augmentedFolder: string,
                              files: seq<string>, draws: seq<ImageDraws>, i: nat)
    requires 0.1 <= c.intensity && |draws| == |files| && i < |files|
    requires openImage(Join(imagesFolder, files[i])) == None
    ensures RunEvents(lib, c, imagesFolder, augmentedFolder, BatchSteps(openImage, imagesFolder, files[i..], draws[i..]))
         == [OpenFailed(Join(imagesFolder, files[i]))]
  {
    BatchStepsOfUnreadable(openImage, imagesFolder, files, draws, i);
  }

  /** The events of one more step are appended to the events of the steps before it. */
  lemma RunEventsSnoc(lib: Library, c: Config, imagesFolder: string, augmentedFolder: string, done: seq<Step>, s: Step)
    requires 0.1 <= c.intensity
    ensures RunEvents(lib, c, imagesFolder, augmentedFolder, done + [s])
         == RunEvents(lib, c, imagesFolder, augmentedFolder, done) + StepEvents(lib, c, imagesFolder, augmentedFolder, s)
  {
    RunEventsAppend(lib, c, imagesFolder, augmentedFolder, done, [s]);
    assert [s][1..] == [];
    assert RunEvents(lib, c, imagesFolder, augmentedFolder, [s])
        == StepEvents(lib, c, imagesFolder, augmentedFolder, s) + RunEvents(lib, c, imagesFolder, augmentedFolder, []);
  }

  /**
   * The batch loop's bookkeeping: if the steps done so far followed by the
   * run from position `i` on make the whole run, and file `i` opens, the
   * same holds one file later with that file's step done.
   */
  lemma StepsAdvanceOpened(openImage: string -> Option<Image>, imagesFolder: string,
                           files: seq<string>, draws: seq<ImageDraws>, i: nat, image: Image, done: seq<Step>)
    requires |draws| == |files| && i < |files|
    requires openImage(Join(imagesFolder, files[i])) == Some(image)
    requires done + BatchSteps(openImage, imagesFolder, files[i..], draws[i..]) == BatchSteps(openImage, imagesFolder, files, draws)
    ensures (done + [Process(files[i], image, draws[i])]) + BatchSteps(openImage, imagesFolder, files[i + 1..], draws[i + 1..])
         == BatchSteps(openImage, imagesFolder, files, draws)
  {
    var rest := BatchSteps(openImage, imagesFolder, files[i + 1..], draws[i + 1..]);
    BatchStepsOfOpened(openImage, imagesFolder, files, draws, i, image);
    assert done + ([Process(files[i], image, draws[i])] + rest) == (done + [Process(files[i], image, draws[i])]) + rest;
  }

  /** With the same bookkeeping, a file `i` that does not open makes its stop the last step of the whole run. */
  lemma StepsEndUnreadable(openImage: string -> Option<Image>, imagesFolder: string,
                           files: seq<string>, draws: seq<ImageDraws>, i: nat, done: seq<Step>)
    requires |draws| == |files| && i < |files|
    requires openImage(Join(imagesFolder, files[i])) == None
    requires done + BatchSteps(openImage, imagesFolder, files[i..], draws[i..]) == BatchSteps(openImage, imagesFolder, files, draws)
    ensures done + [Stop(Join(imagesFolder, files[i]))] == BatchSteps(openImage, imagesFolder, files, draws)
  {
    BatchStepsOfUnreadable(openImage, imagesFolder, files, draws, i);
  }

  /**
   * One turn of the batch loop over a file that opens: the trace so far
   * extended by that file's events is the trace of the steps done so far
   * extended by that file's step.
   */
  lemma LoopStepOpened(lib: Library, c: Config, openImage: string -> Option<Image>,
                       imagesFolder: string, augmentedFolder: string,
                       files: seq<string>, draws: seq<ImageDraws>, i: nat, image: Image,
                       done: seq<Step>, trace: seq<Event>, events: seq<Event>)
    requires 0.1 <= c.intensity && |draws| == |files| && i < |files|
    requires openImage(Join(imagesFolder, files[i])) == Some(image)
    requires done + BatchSteps(openImage, imagesFolder, files[i..], draws[i..]) == BatchSteps(openImage, imagesFolder, files, draws)
    requires trace == RunEvents(lib, c, imagesFolder, augmentedFolder, done)
    requires events == ItemEvents(lib, c, draws[i], imagesFolder, augmentedFolder, files[i], image)
    ensures (done + [Process(files[i], image, draws[i])]) + BatchSteps(openImage, imagesFolder, files[i + 1..], draws[i + 1..])
         == BatchSteps(openImage, imagesFolder, files, draws)
    ensures trace + events == RunEvents(lib, c, imagesFolder, augmentedFolder, done + [Process(files[i], image, draws[i])])
  {
    StepsAdvanceOpened(openImage, imagesFolder, files, draws, i, image, done);
    RunEventsSnoc(lib, c, imagesFolder, augmentedFolder, done, Process(files[i], image, draws[i]));
  }

  /** The turn of the batch loop over a file that does not open completes the run's trace. */
  lemma LoopStepUnreadable(lib: Library, c: Config, openImage: string -> Option<Image>,
                           imagesFolder: string, augmentedFolder: string,
                           files: seq<string>, draws: seq<ImageDraws>, i: nat,
                           done: seq<Step>, trace: seq<Event>)
    requires 0.1 <= c.intensity && |draws| == |files| && i < |files|
    requires openImage(Join(imagesFolder, files[i])) == None
    requires done + BatchSteps(openImage, imagesFolder, files[i..], draws[i..]) == BatchSteps(openImage, imagesFolder, files, draws)
    requires trace == RunEvents(lib, c, imagesFolder, augmentedFolder, done)
    ensures trace + [OpenFailed(Join(imagesFolder, files[i]))]
         == RunEvents(lib, c, imagesFolder, augmentedFolder, BatchSteps(openImage, imagesFolder, files, draws))
  {
    StepsEndUnreadable(openImage, imagesFolder, files, draws, i, done);
    RunEventsSnoc(lib, c, imagesFolder, augmentedFolder, done, Stop(Join(imagesFolder, files[i])));
  }

  /** The paths of the saves in a trace, in order. */
  function SavedPaths(events: seq<Event>): seq<string>
  {
    if events == [] then []
    else (if events[0].Saved? then [events[0].path] else []) + SavedPaths(events[1..])
  }

  lemma {:induction false} SavedPathsAppend(a: seq<Event>, b: seq<Event>)
    ensures SavedPaths(a + b) == SavedPaths(a) + SavedPaths(b)
  {
    if a == [] {
      assert a + b == b;
    } else {
      assert (a + b)[0] == a[0] && (a + b)[1..] == a[1..] + b;
      SavedPathsAppend(a[1..], b);
    }
  }

  lemma {:induction false} SavedPathsOfApplied(stages: seq<Stage>)
    ensures SavedPaths(AppliedEvents(stages)) == []
  {
    if stages != [] {
      assert AppliedEvents(stages)[1..] == AppliedEvents(stages[1..]);
      SavedPathsOfApplied(stages[1..]);
    }
  }

  /** A save, events that save nothing, and a save: the two paths, in order. */
  lemma SavedPathsBracketed(first: Event, middle: seq<Event>, last: Event)
    requires first.Saved? && last.Saved? && SavedPaths(middle) == []
    ensures SavedPaths([first] + middle + [last]) == [first.path, last.path]
  {
    SavedPathsAppend([first] + middle, [last]);
    SavedPathsAppend([first], middle);
    assert [first][1..] == [] && [last][1..] == [];
  }

  /** One processed file is saved twice: its original, then its augmented copy. */
  lemma SavedPathsOfItem(lib: Library, c: Config, d: ImageDraws, imagesFolder: string, augmentedFolder: string,
                         name: string, image: Image)
    requires 0.1 <= c.intensity
    ensures SavedPaths(ItemEvents(lib, c, d, imagesFolder, augmentedFolder, name, image))
         == [Join(imagesFolder, OriginalName(name)), Join(augmentedFolder, AugmentedName(name))]
  {
    SavedPathsOfApplied(EnabledStages(c.toggles));
    SavedPathsBracketed(SaveImage(image, Join(imagesFolder, OriginalName(name))), AppliedEvents(EnabledStages(c.toggles)),
                        SaveImage(Augmented(lib, image, c, d), Join(augmentedFolder, AugmentedName(name))));
  }

  /** For every file, its original's path and then its augmented copy's path. */
  function PlannedPaths(imagesFolder: string, augmentedFolder: string, files: seq<string>): seq<string>
  {
    if files == [] then []
    else
      [Join(imagesFolder, OriginalName(files[0])), Join(augmentedFolder, AugmentedName(files[0]))]
        + PlannedPaths(imagesFolder, augmentedFolder, files[1..])
  }

  /**
   * When every file opens, each file is saved exactly twice, original then
   * augmented copy, and the files follow one another in list order.
   */
  lemma {:induction false} SavedPathsOfBatch(lib: Library, c: Config, openImage: string -> Option<Image>,
                                             imagesFolder: string, augmentedFolder: string,
                                             files: seq<string>, draws: seq<ImageDraws>)
    requires 0.1 <= c.intensity && |draws| == |files| && AllOpen(openImage, imagesFolder, files)
    ensures SavedPaths(RunEvents(lib, c, imagesFolder, augmentedFolder, BatchSteps(openImage, imagesFolder, files, draws)))
         == PlannedPaths(imagesFolder, augmentedFolder, files)
  {
    if files != [] {
      var image := openImage(Join(imagesFolder, files[0])).value;
      var steps := BatchSteps(openImage, imagesFolder, files, draws);
      var rest := BatchSteps(openImage, imagesFolder, files[1..], draws[1..]);
      assert steps == [Process(files[0], image, draws[0])] + rest;
      assert steps[0] == Process(files[0], image, draws[0]) && steps[1..] == rest;
      var item := ItemEvents(lib, c, draws[0], imagesFolder, augmentedFolder, files[0], image);
      assert RunEvents(lib, c, imagesFolder, augmentedFolder, steps) == item + RunEvents(lib, c, imagesFolder, augmentedFolder, rest);
      SavedPathsAppend(item, RunEvents(lib, c, imagesFolder, augmentedFolder, rest));
      SavedPathsOfItem(lib, c, draws[0], imagesFolder, augmentedFolder, files[0], image);
      SavedPathsOfBatch(lib, c, openImage, imagesFolder, augmentedFolder, files[1..], draws[1..]);
    }
  }

  /** The settings window, reduced to the state the batch run reads. */
  class ImageProcessingGui {
    var imagesFolder: string
    var imageFiles: seq<string>

    /** Start-up: the "images" folder under the working directory, and its image files. */
    constructor (cwd: string, listing: Option<seq<string>>)
      ensures imagesFolder == Join(cwd, "images")
      ensures imageFiles == if listing.Some? then FilterImages(listing.value) else []
    {
      imagesFolder := Join(cwd, "images");
      imageFiles := [];
      new;
      LoadImages(listing);
    }

    /**
     * `load_images`: `listing` is what `os.listdir` returned, None when it
     * raised; on failure the list is left as it was.
     */
    method LoadImages(listing: Option<seq<string>>)
      modifies this
      ensures imagesFolder == old(imagesFolder)
      ensures imageFiles == if listing.Some? then FilterImages(listing.value) else old(imageFiles)
    {
      if listing.Some? {
        imageFiles := FilterImages(listing.value);
      }
    }

    /**
     * The body of the batch loop for one opened image: save the original,
     * run the enabled stages on a copy, save the copy.
     */
    method ProcessImage(lib: Library, c: Config, d: ImageDraws, augmentedFolder: string,
                        imageFile: string, image: Image) returns (events: seq<Event>)
      requires 0.1 <= c.intensity
      ensures events == ItemEvents(lib, c, d, imagesFolder, augmentedFolder, imageFile, image)
    {
      events := [SaveImage(image, Join(imagesFolder, OriginalName(imageFile)))];
      var processed, applied := AugmentCopy(lib, image, c, d);
      events := events + AppliedEvents(applied);
      events := events + [SaveImage(processed, Join(augmentedFolder, AugmentedName(imageFile)))];
    }

    /**
     * `apply_settings`: validate the entry, create the output folder when it
     * does not exist, then process every listed image in order. The result is
     * the trace of what the run did.
     */
    method ApplySettings(lib: Library, toggles: Toggles, entry: Option<real>, cwd: string,
                         augmentedExists: bool, openImage: string -> Option<Image>, draws: seq<ImageDraws>)
      returns (trace: seq<Event>)
      requires |draws| == |imageFiles|
      ensures Validate(entry) == None ==> trace == []
      ensures Validate(entry).Some? ==>
        var c := Config(toggles, entry.value);
        var augmentedFolder := Join(cwd, AugmentedFolderName);
        trace == (if augmentedExists then [] else [MadeFolder(augmentedFolder)])
               + RunEvents(lib, c, imagesFolder, augmentedFolder, BatchSteps(openImage, imagesFolder, imageFiles, draws))
    {
      var intensity := Validate(entry);
      if intensity.None? {
        return [];
      }
      var c := Config(toggles, intensity.value);
      var augmentedFolder := Join(cwd, AugmentedFolderName);
      trace := if augmentedExists then [] else [MadeFolder(augmentedFolder)];
      var events := ProcessAll(lib, c, openImage, augmentedFolder, draws);
      trace := trace + events;
    }

    /** The loop over `imageFiles`, in order, stopping at the first image that fails to open. */
    method ProcessAll(lib: Library, c: Config, openImage: string -> Option<Image>, augmentedFolder: string,
                      draws: seq<ImageDraws>) returns (trace: seq<Event>)
      requires 0.1 <= c.intensity && |draws| == |imageFiles|
      ensures trace == RunEvents(lib, c, imagesFolder, augmentedFolder, BatchSteps(openImage, imagesFolder, imageFiles, draws))
    {
      trace := [];
      var i := 0;
      ghost var done: seq<Step> := [];
      while i < |imageFiles|
        invariant 0 <= i <= |imageFiles|
        invariant done + BatchSteps(openImage, imagesFolder, imageFiles[i..], draws[i..])
               == BatchSteps(openImage, imagesFolder, imageFiles, draws)
        invariant trace == RunEvents(lib, c, imagesFolder, augmentedFolder, done)
      {
        var imageFile := imageFiles[i];
        var imagePath := Join(imagesFolder, imageFile);
        var decoded := openImage(imagePath);
        if decoded.None? {
          LoopStepUnreadable(lib, c, openImage, imagesFolder, augmentedFolder, imageFiles, draws, i, done, trace);
          trace := trace + [OpenFailed(imagePath)];
          return;
        }
        var image := decoded.value;
        var events := ProcessImage(lib, c, draws[i], augmentedFolder, imageFile, image);
        LoopStepOpened(lib, c, openImage, imagesFolder, augmentedFolder, imageFiles, draws, i, image, done, trace, events);
        done := done + [Process(imageFile, image, draws[i])];
        trace := trace + events;
        i := i + 1;
      }
      assert imageFiles[i..] == [] && done + [] == done;
    }
  }
}
