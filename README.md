# Image augmentation tool, modelled in Dafny

`Augment.py` is a small Tkinter tool. At start-up it lists the image files of an `images` folder. When the
user presses "Apply Settings", it reads seven check boxes and an intensity value. For every listed image it
saves an unmodified `original_<name>` copy next to the input. It then runs the enabled transforms in one
fixed order (blur, contrast, brightness, gamma, hue, saturation, Gaussian noise) and saves the result as
`<stem>_augmented<ext>` in an `Augmented_images` folder. The save format is PNG for RGBA images, and
otherwise JPEG exactly when the lower-cased path ends in `.jpg` or `.jpeg`.

The model has six modules:

- `Imaging` (imaging.dfy): images, modes, and the imaging library. The library's calls are the
  function-valued fields of a `Library` value, and nothing is known about them.
- `Paths` (paths.dfy): the case-sensitive input filter, `os.path.join`, `os.path.splitext`, the two
  output names, and the save-format rule.
- `Channels` (channels.dfy): the integer channel arithmetic of the hue shift (a ring of 255 steps) and
  of the noise addition.
- `Transforms` (transforms.dfy): the randomised contrast and brightness, the hue transform and the
  noise transform. Every random number is an explicit parameter.
- `Pipeline` (pipeline.dfy): the seven stages in their fixed order, as a specification function. It also
  has an imperative method with the seven conditional blocks, proved equal to that function.
- `Gui` (gui.dfy): the settings window as a class that holds `imagesFolder` and `imageFiles`. Its parts:
  - The intensity validation.
  - The batch loop, as a method that returns the ordered trace of what a run does: folder creation,
    saves with their format, the stages applied, and the file that failed to open.
  - A specification of that trace, from which the ordering properties are proved.

The file system and the random sources are parameters:

- `listing` is what `os.listdir` returned, or None when it raised.
- `openImage` maps a path to what `Image.open` decoded, or None when it raised.
- `augmentedExists` is what `os.path.exists` answered.
- `ImageDraws` holds the draws of `random.random()` behind the two uniform factors, and the integer
  noise draws.

Three behaviours of the program are kept as written:

- An image that fails to open raises out of the loop and ends the batch: the files after it are not processed (`Gui.UnreadableFileEndsRun`).
- Hue converts to RGB, and noise goes through `Image.fromarray`, so an image's mode is not always kept. Hue drops an alpha channel (`Pipeline.HueDropsAlpha`), and a palette image comes back as greyscale.
- The noise stage adds uint8 to uint8, so each sample wraps modulo 256 and the clip after it does nothing (`Transforms.ApplyGaussianNoise`). The saturating stage that was evidently intended is modelled beside it (`Transforms.ApplySaturatingNoise`, see Findings), and the pipeline does not run it.

## Model

| member | source | states |
|---|---|---|
| Imaging.ChannelCount | Augment.py:196 | `np.array(image)` has 1 to 4 samples per pixel, and 4 exactly for RGBA and CMYK |
| Imaging.ArrayMode | Augment.py:201 | `Image.fromarray` of an 8-bit array keeps the channel count and gives L, LA, RGB or RGBA; those four modes come back unchanged |
| Paths.IsImageFile | Augment.py:80 | definition: the name ends, case-sensitively, in `.png`, `.jpg`, `.jpeg` or `.bmp` |
| Paths.FilterImages | Augment.py:80 | a listing entry is kept exactly when it ends in one of the four suffixes; the result is no longer than the listing |
| Paths.FilterImagesAppend | Augment.py:80 | filtering a concatenated listing is concatenating the filtered parts, so listing order is kept |
| Paths.UpperCaseExtensionIsNotImage | Augment.py:80 | the filter is case-sensitive: `b.PNG` is not picked up |
| Paths.Lower | Augment.py:163 | definition: `str.lower` on ASCII letters, character by character |
| Paths.LowerIdempotent | Augment.py:163 | lower-casing twice is lower-casing once |
| Paths.LowerAppend | Augment.py:163 | lower-casing distributes over concatenation |
| Paths.Join | Augment.py:114 | definition: POSIX `os.path.join` of a folder and one name (properties in `JoinParts`) |
| Paths.JoinParts | Augment.py:114 | `os.path.join` ends with the name, starts with the folder for a relative name, and is the name itself for an absolute one |
| Paths.RFind | Augment.py:153 | `rfind` gives -1 or an index of the string |
| Paths.RFindLast | Augment.py:153 | the index `rfind` gives holds the character, and no later index does |
| Paths.RFindAt | Augment.py:153 | an index holding the character with none after it is exactly what `rfind` returns |
| Paths.RFindAbsent | Augment.py:153 | `rfind` of a character that does not occur is -1 |
| Paths.TailAfterLastDot | Augment.py:153 | the part from the last dot on holds no further dot or separator |
| Paths.Splitext | Augment.py:153 | `splitext` cuts the name in two parts that concatenate back to it |
| Paths.SplitextExtension | Augment.py:153 | the part `splitext` splits off is empty or a dot followed by no dot and no separator |
| Paths.SplitextOfStemAndExtension | Augment.py:153 | for a stem without a separator that is not all dots, and a dotted extension, `splitext(stem + ext)` is `(stem, ext)` |
| Paths.SplitextOfBareExtension | Augment.py:153 | a leading dot is not an extension: `splitext(".jpg")` is `(".jpg", "")` |
| Paths.OriginalName | Augment.py:118 | definition: `f"original_{image_file}"` (properties in `OriginalNameEndsWithName`) |
| Paths.OriginalNameEndsWithName | Augment.py:118 | the original's name is the input name behind the 9-character prefix `original_` |
| Paths.AugmentedName | Augment.py:153 | definition: the `splitext` stem, then `_augmented`, then the extension (properties in `AugmentedNameKeepsExtension` and `AugmentedNameOf`) |
| Paths.AugmentedNameKeepsExtension | Augment.py:153 | the augmented name is 10 characters longer, starts with the input's stem and ends with its extension |
| Paths.AugmentedNameOf | Augment.py:153 | the augmented name of `stem + ext` is `stem + "_augmented" + ext` |
| Paths.SaveFormat | Augment.py:158-166 | RGBA always gives PNG; JPEG exactly for a non-RGBA image whose lower-cased path ends in `.jpg` or `.jpeg` |
| Paths.SaveFormatIgnoresCase | Augment.py:163 | only the lower-cased path matters to the format |
| Paths.EndsWithExtension | Augment.py:163 | a path with a dotted extension ends with a dotted suffix exactly when the extension equals it |
| Paths.SaveFormatOfExtension | Augment.py:163-166 | for a non-RGBA image, the format is JPEG exactly when the path's extension is `.jpg` or `.jpeg` in any case |
| Paths.AugmentedSaveFormat | Augment.py:153-154 | the augmented copy of `stem.ext` without alpha is saved as JPEG exactly when `ext` is `.jpg` or `.jpeg` in any case |
| Channels.Clip | Augment.py:200 | `np.clip` lands in the bounds: a value below `lo` becomes `lo`, one above `hi` becomes `hi`, and one in range is left alone |
| Channels.ShiftHue | Augment.py:187 | each shifted hue is in 0..254 and congruent to the hue plus the shift modulo 255 |
| Channels.ShiftHueTwice | Augment.py:187 | two hue shifts equal one shift by their sum |
| Channels.ShiftHueWholeTurns | Augment.py:187 | shifts summing to a multiple of 255 give every hue back modulo 255 |
| Channels.WholeTurnKeepsHue | Augment.py:187 | a shift that is a multiple of 255 keeps every hue byte below 255 and maps 255 to 0 |
| Channels.ShiftHuePlanes | Augment.py:186-188 | the hue plane is shifted; saturation and value are untouched |
| Channels.WrappingNoiseSum | Augment.py:199-200 | as written: each sample is `(a + n) mod 256`, so the clip never changes anything |
| Channels.WrappingNoiseDarkensBrightSamples | Augment.py:199-200 | as written: a bright sample pushed past 255 comes out below where it started |
| Channels.NoiseOverflowExample | Augment.py:199-200 | sample 250 with noise 10 gives 4 as written and 255 as intended |
| Channels.SaturatingNoiseSum | Augment.py:200 | intended: every sample in 0..255, the exact sum when it fits, 0 below and 255 above |
| Channels.NoiseBytes | Augment.py:199 | `.astype(np.uint8)` of integer draws gives bytes congruent to the draws modulo 256 |
| Channels.NoiseSumsAgreeInRange | Augment.py:199-200 | where the true sum fits in 0..255 the written and the intended noise agree |
| Transforms.Uniform | Augment.py:169 | `random.uniform(lo, hi)` lies in [lo, hi], and in exact arithmetic below `hi` when lo < hi |
| Transforms.ApplyRandomContrast | Augment.py:168-171 | the result is the contrast enhancement by some factor in [0.1, intensity] |
| Transforms.ApplyRandomBrightness | Augment.py:173-176 | the result is the brightness enhancement by some factor in [0.1, intensity] |
| Transforms.HueShift | Augment.py:187 | `int(intensity * 255)` is the floor of the product, and non-negative |
| Transforms.HueShiftRange | Augment.py:99-105 | an accepted intensity gives a hue shift in [25, 1275] |
| Transforms.ApplyHue | Augment.py:184-189 | the result is RGB of the same size, and its samples are those of the HSV planes with the hue shifted by `int(intensity * 255)` |
| Transforms.ApplyGaussianNoise | Augment.py:195-201 | as written: same size and sample count, mode from the channel count, and every sample is the input sample plus its own draw modulo 256 |
| Transforms.NoiseByteSum | Augment.py:199-200 | adding a draw cast to a byte is, modulo 256, adding the draw itself |
| Transforms.ApplySaturatingNoise | Augment.py:200 | intended: same size and mode, every sample in 0..255, the exact sum where it fits |
| Transforms.NoiseStageOverflowExample | Augment.py:199-200 | one RGB pixel (250, 0, 0) with every draw 10 comes out (4, 10, 10) as written and (255, 10, 10) as intended |
| Transforms.NoiseStagesAgreeInRange | Augment.py:199-200 | the written and the intended noise stage give the same sample wherever the true sum fits in 0..255 |
| Pipeline.Rank | Augment.py:124-150 | each stage has its position in the fixed order |
| Pipeline.KeepEnabledMembers | Augment.py:124-150 | exactly the enabled stages of a list are kept |
| Pipeline.KeepEnabledAscending | Augment.py:124-150 | keeping the enabled stages of an ordered list keeps it ordered |
| Pipeline.StageOrderAscending | Augment.py:124-150 | the fixed order has no repeats |
| Pipeline.EnabledStagesInOrder | Augment.py:124-150 | a stage runs exactly when its box is ticked, each at most once, always in the fixed order |
| Pipeline.KeepEnabledAppend | Augment.py:124-150 | selecting from two concatenated lists is concatenating the selections |
| Pipeline.KeepEnabledNone | Augment.py:124-150 | with no enabled stage nothing runs |
| Pipeline.KeepEnabledStep | Augment.py:124-150 | one more block of the fixed order adds its stage exactly when enabled |
| Pipeline.ApplyStage | Augment.py:125-150 | definition of one block: blur radius, gamma exponent and saturation factor are the intensity; contrast and brightness draw their factor from [0.1, intensity]; hue shifts by `int(intensity * 255)`; noise uses the image's own draws |
| Pipeline.RunStages | Augment.py:121-150 | definition: stages rebind the copy left to right, each on the previous one's output (composition in `RunStagesAppend`) |
| Pipeline.Augmented | Augment.py:121-150 | definition: the enabled stages of the fixed order run on the copy (`AugmentCopy` is proved to compute it) |
| Pipeline.NoiseOnlyStages | Augment.py:124-150 | with only the noise box ticked, noise is the one stage that runs |
| Pipeline.RunStagesAppend | Augment.py:121-150 | running two stage lists in a row is running their concatenation |
| Pipeline.StageBlock | Augment.py:124-150 | after block k the applied stages are the enabled ones among the first k+1, and the image is their run on the copy |
| Pipeline.AugmentCopy | Augment.py:121-150 | the seven conditional blocks apply exactly the enabled stages in the fixed order, and the copy is their run on the image |
| Pipeline.AllTogglesOffIsIdentity | Augment.py:121-150 | with every box unticked the output is the unmodified copy |
| Pipeline.RunStagesKeepsSize | Augment.py:121-150 | any list of stages keeps width and height when the library calls do |
| Pipeline.AugmentedKeepsSize | Augment.py:121-150 | the augmented image has the input's width and height when the library calls keep sizes |
| Pipeline.NoiseOnlyKeepsAlpha | Augment.py:148-150 | an RGBA image with only noise on stays RGBA with all samples in 0..255, and is saved as PNG whatever its name |
| Pipeline.HueDropsAlpha | Augment.py:140-146 | with hue on and saturation off the output is RGB whatever the input mode, so alpha is lost |
| Gui.Validate | Augment.py:99-105 | an entry is accepted exactly when it parses and lies in [0.1, 5.0], bounds included, and is then unchanged |
| Gui.SaveImage | Augment.py:158-166 | one save of exactly this image to exactly this path: PNG for RGBA, JPEG exactly for non-RGBA `.jpg`/`.jpeg` paths in any case |
| Gui.ItemEvents | Augment.py:114-154 | definition of one loop iteration's effects: the original's save, the stages, the augmented copy's save (order proved in `ItemEventsOrder`) |
| Gui.BatchSteps | Augment.py:113-115 | definition of the loop's control flow: files in list order, and a file whose `Image.open` raises ends the loop (properties in `EveryFileProcessedOnce` and `UnreadableFileEndsRun`) |
| Gui.ItemEventsOrder | Augment.py:114-154 | per file: the untouched original is saved first, then the enabled stages run in order, and last the pipeline's output is saved under the augmented name |
| Gui.RunEventsAppend | Augment.py:113-156 | the trace of two runs in a row is the concatenation of their traces |
| Gui.EveryFileProcessedOnce | Augment.py:113-115 | when every file opens, every listed file is processed exactly once, in list order, with its own image and draws |
| Gui.BatchStepsAppend | Augment.py:113-115 | the run over `a + b` is the run over `a` followed by the run over `b` when all of `a` opens |
| Gui.UnreadableFileEndsRun | Augment.py:113-115 | the first file that fails to open ends the run: nothing after it is opened, transformed or saved |
| Gui.BatchStepsOfOpened | Augment.py:113-115 | from position i on, a file that opens is processed and the run goes on with the next file |
| Gui.BatchStepsOfUnreadable | Augment.py:113-115 | from position i on, a file that does not open is the last step |
| Gui.RunEventsOfOpened | Augment.py:113-154 | from position i on, a file that opens contributes its own events, then the run continues with the rest |
| Gui.RunEventsOfUnreadable | Augment.py:113-115 | from position i on, a file that fails to open leaves only the failure in the trace |
| Gui.RunEventsSnoc | Augment.py:113-156 | the trace of one more step is the earlier trace followed by that step's events |
| Gui.StepsAdvanceOpened | Augment.py:113-115 | loop bookkeeping: steps done plus the run from file i make the whole run, and stay so after an opened file i is done |
| Gui.StepsEndUnreadable | Augment.py:113-115 | loop bookkeeping: with file i unreadable, the steps done plus its stop are the whole run |
| Gui.LoopStepOpened | Augment.py:113-154 | one turn over an opened file keeps both loop invariants: the steps bookkeeping and trace = events of the steps done |
| Gui.LoopStepUnreadable | Augment.py:113-115 | the turn over an unreadable file completes the whole run's trace |
| Gui.SavedPathsOfApplied | Augment.py:124-150 | applying stages saves nothing |
| Gui.SavedPathsOfItem | Augment.py:117-154 | one processed file is saved twice: `images/original_<name>`, then `Augmented_images/<stem>_augmented<ext>` |
| Gui.SavedPathsOfBatch | Augment.py:113-156 | when every file opens, the saves are each file's original then its augmented copy, file after file in list order |
| Gui.ImageProcessingGui.constructor | Augment.py:11-25 | the images folder is `<cwd>/images` and the file list is the filtered listing, or empty when listing failed |
| Gui.ImageProcessingGui.LoadImages | Augment.py:77-86 | the file list becomes the filtered listing; a failed listing leaves it as it was |
| Gui.ImageProcessingGui.ProcessImage | Augment.py:114-154 | the loop body's events are the per-file trace: original save, stages applied, augmented save |
| Gui.ImageProcessingGui.ProcessAll | Augment.py:113-156 | the loop's trace is the specified run over the file list, stopping at the first file that fails to open |
| Gui.ImageProcessingGui.ApplySettings | Augment.py:88-156 | a rejected intensity creates and saves nothing; otherwise the output folder is made if missing, then the batch runs over the file list with the accepted intensity |

## Left out

- The Tkinter window, its widgets, `print` and `messagebox` output are not modelled. They have no effect on files or images.
- File-system calls are parameters of the model, not operations on a file system: `os.listdir`, `os.path.exists`, `Image.open`. Saves and folder creation are events in a trace. A failing `os.mkdir` or a failing `image.save` is not modelled.
- Gui.ImageProcessingGui.constructor: creating a missing `images` folder at start-up (Augment.py:17-22) is left out. So is the early return when that creation fails, which skips `load_images`.
- Gui.ImageProcessingGui.constructor: when the listing fails, the source never assigns `image_files`, and a later "Apply Settings" would raise. The model starts from an empty list instead.
- The Pillow and numpy calls are uninterpreted fields of `Library`. This covers Gaussian blur, the contrast, brightness and colour enhancers, and the conversion to and from HSV. The gamma body (Augment.py:178-182) is also one opaque call, so its division by the image maximum (unguarded, so an all-black image divides by zero) and its float rounding are not modelled.
- Transforms.Uniform: computes `lo + (hi - lo) * u` in exact reals. In binary floating point the result can round up to `hi`, so the strict upper bound holds of the model only.
- Random generation is not modelled. Uniform draws are values in [0, 1). Noise draws are arbitrary integers, so their normal distribution and their float-to-byte truncation are not captured.
- Transforms.HueShift: the intensity is an exact real and the shift is the exact floor of `intensity * 255`. Binary floating point could round the product to just below an integer and give a shift one smaller.
- Gui.Validate: `float()` parsing is not modelled. The entry arrives already parsed, and None stands for a parse error. A NaN fails both comparisons in the source and so is rejected, which is the same as None.
- Channels.ShiftHue: uses exact integer addition. numpy adds the Python integer to the uint8 hue plane under its own promotion rules. With value-based casting, a shift of at most 255 would wrap modulo 256 before the `% 255`. Newer numpy raises for a shift above 255 instead.
- Channels.NoiseBytes: casting a negative float with `.astype(np.uint8)` is platform-defined in numpy. The model takes the modulo-256 wrap.
- Paths.Lower: lower-cases ASCII letters only. Python's `str.lower` also folds other Unicode letters.
- Paths.Join: follows POSIX `os.path.join` with one name. Windows drive and separator rules are left out.
- Imaging.Mode: covers the 8-bit Pillow modes. Modes 1, I, F and the 16-bit modes are left out.

## Findings

| source | as written | input that shows it | evidently intended | confidence | as-written member | corrected member |
|---|---|---|---|---|---|---|
| Augment.py:199-200 | the noise is cast to uint8 and added to the uint8 image array. The sum wraps modulo 256 before `np.clip`, so the clip is dead code, and bright pixels turn dark (negative noise likewise turns dark pixels bright) | a sample of 250 with a noise draw of 10 gives 4 | add the signed noise in a wider integer type, then clip the sum to 0..255, giving 255 | not executed | Transforms.ApplyGaussianNoise | Transforms.ApplySaturatingNoise |
