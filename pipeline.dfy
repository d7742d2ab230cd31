/**
 * The augmentation of one image: seven stages, each switched on or off by its
 * own toggle, always tried in one fixed order, each consuming the image the
 * previous stage produced.
 */
module Pipeline {
  import opened Imaging
  import opened Channels
  import opened Transforms
  import Paths

  datatype Stage = Blur | Contrast | Brightness | Gamma | Hue | Saturation | Noise

  /** The order in which enabled stages run, whatever subset is enabled. */
  const StageOrder: seq<Stage> := [Blur, Contrast, Brightness, Gamma, Hue, Saturation, Noise]

  /** Position of a stage in `StageOrder`. */
  function Rank(s: Stage): (n: nat)
    ensures n < |StageOrder| && StageOrder[n] == s
  {
    match s
    case Blur => 0
    case Contrast => 1
    case Brightness => 2
    case Gamma => 3
    case Hue => 4
    case Saturation => 5
    case Noise => 6
  }

  /** The seven check boxes of the settings form. */
  datatype Toggles = Toggles(blur: bool, contrast: bool, gamma: bool, brightness: bool,
                             hue: bool, saturation: bool, noise: bool)

  const AllOff: Toggles := Toggles(false, false, false, false, false, false, false)

  predicate Enabled(t: Toggles, s: Stage)
  {
    match s
    case Blur => t.blur
    case Contrast => t.contrast
    case Brightness => t.brightness
    case Gamma => t.gamma
    case Hue => t.hue
    case Saturation => t.saturation
    case Noise => t.noise
  }

  /** Every stage comes strictly after the ones before it in `StageOrder`: no repeats. */
  predicate Ascending(stages: seq<Stage>)
  {
    forall i, j :: 0 <= i < j < |stages| ==> Rank(stages[i]) < Rank(stages[j])
  }

  /** `[s]` when `on`, else nothing. */
  function Opt(on: bool, s: Stage): seq<Stage>
  {
    if on then [s] else []
  }

  /** The enabled stages of `stages`, in their order there. */
  function KeepEnabled(t: Toggles, stages: seq<Stage>): seq<Stage>
  {
    if stages == [] then []
    else Opt(Enabled(t, stages[0]), stages[0]) + KeepEnabled(t, stages[1..])
  }

  lemma {:induction false} KeepEnabledMembers(t: Toggles, stages: seq<Stage>)
    ensures forall s :: s in KeepEnabled(t, stages) <==> s in stages && Enabled(t, s)
  {
    if stages != [] {
      KeepEnabledMembers(t, stages[1..]);
      assert stages == [stages[0]] + stages[1..];
    }
  }

  lemma {:induction false} KeepEnabledAscending(t: Toggles, stages: seq<Stage>)
    requires Ascending(stages)
    ensures Ascending(KeepEnabled(t, stages))
  {
    if stages != [] {
      var rest := KeepEnabled(t, stages[1..]);
      KeepEnabledAscending(t, stages[1..]);
      KeepEnabledMembers(t, stages[1..]);
      forall x | x in rest ensures Rank(stages[0]) < Rank(x) {
        var k :| 0 <= k < |stages[1..]| && stages[1..][k] == x;
        assert stages[k + 1] == x;
      }
      var r := Opt(Enabled(t, stages[0]), stages[0]) + rest;
      forall i, j | 0 <= i < j < |r| ensures Rank(r[i]) < Rank(r[j]) {
        if Enabled(t, stages[0]) && i == 0 {
          assert r[j] == rest[j - 1] && r[j] in rest;
        }
      }
    }
  }

  lemma StageOrderAscending()
    ensures Ascending(StageOrder)
  {
    forall i | 0 <= i < |StageOrder| ensures Rank(StageOrder[i]) == i {
      assert StageOrder[Rank(StageOrder[i])] == StageOrder[i];
    }
  }

  /** The stages that run for toggles `t`: the enabled ones of `StageOrder`. */
  function EnabledStages(t: Toggles): seq<Stage>
  {
    KeepEnabled(t, StageOrder)
  }

  /** Exactly the enabled stages run, each once, in the fixed order. */
  lemma EnabledStagesInOrder(t: Toggles)
    ensures forall s :: s in EnabledStages(t) <==> Enabled(t, s)
    ensures Ascending(EnabledStages(t))
  {
    forall s ensures s in StageOrder { assert StageOrder[Rank(s)] == s; }
    KeepEnabledMembers(t, StageOrder);
    StageOrderAscending();
    KeepEnabledAscending(t, StageOrder);
  }

  /** Filtering a concatenation filters each part. */
  lemma {:induction false} KeepEnabledAppend(t: Toggles, a: seq<Stage>, b: seq<Stage>)
    ensures KeepEnabled(t, a + b) == KeepEnabled(t, a) + KeepEnabled(t, b)
  {
    if a == [] {
      assert a + b == b;
    } else {
      assert (a + b)[1..] == a[1..] + b;
      KeepEnabledAppend(t, a[1..], b);
    }
  }

  lemma {:induction false} KeepEnabledNone(t: Toggles, stages: seq<Stage>)
    requires forall i :: 0 <= i < |stages| ==> !Enabled(t, stages[i])
    ensures KeepEnabled(t, stages) == []
  {
    if stages != [] {
      KeepEnabledNone(t, stages[1..]);
    }
  }

  /** The stages run after the first k + 1 of `StageOrder` extend those run after the first k. */
  lemma KeepEnabledStep(t: Toggles, k: nat)
    requires k < |StageOrder|
    ensures KeepEnabled(t, StageOrder[..k + 1]) ==
      if Enabled(t, StageOrder[k]) then KeepEnabled(t, StageOrder[..k]) + [StageOrder[k]] else KeepEnabled(t, StageOrder[..k])
  {
    assert StageOrder[..k + 1] == StageOrder[..k] + [StageOrder[k]];
    KeepEnabledAppend(t, StageOrder[..k], [StageOrder[k]]);
    assert KeepEnabled(t, [StageOrder[k]]) == Opt(Enabled(t, StageOrder[k]), StageOrder[k]) + KeepEnabled(t, [StageOrder[k]][1..]);
  }

  /** The check boxes and the accepted intensity of one run. */
  datatype Config = Config(toggles: Toggles, intensity: real)

  /**
   * One stage: blur radius, gamma exponent and saturation factor are the
   * intensity itself; contrast and brightness draw their factor from
   * [0.1, intensity]; the hue shift is `int(intensity * 255)`; noise uses
   * its own draws.
   */
  function ApplyStage(lib: Library, s: Stage, img: Image, c: Config, d: Draws): Image
    requires 0.1 <= c.intensity && ValidDraws(d)
  {
    match s
    case Blur => lib.gaussianBlur(img, c.intensity)
    case Contrast => ApplyRandomContrast(lib, img, c.intensity, d.contrast)
    case Brightness => ApplyRandomBrightness(lib, img, c.intensity, d.brightness)
    case Gamma => lib.gamma(img, c.intensity)
    case Hue => ApplyHue(lib, img, c.intensity)
    case Saturation => lib.color(img, c.intensity)
    case Noise => ApplyGaussianNoise(img, d.noise)
  }

  /** Stages run left to right, each on the previous stage's output. */
  function RunStages(lib: Library, stages: seq<Stage>, img: Image, c: Config, d: Draws): Image
    requires 0.1 <= c.intensity && ValidDraws(d)
  {
    if stages == [] then img
    else RunStages(lib, stages[1..], ApplyStage(lib, stages[0], img, c, d), c, d)
  }

  /** The image the pipeline produces from `img`. */
  function Augmented(lib: Library, img: Image, c: Config, d: Draws): Image
    requires 0.1 <= c.intensity && ValidDraws(d)
  {
    RunStages(lib, EnabledStages(c.toggles), img, c, d)
  }

  /** Running `a` then `b` is running `b` on what `a` produced. */
  lemma {:induction false} RunStagesAppend(lib: Library, a: seq<Stage>, b: seq<Stage>, img: Image, c: Config, d: Draws)
    requires 0.1 <= c.intensity && ValidDraws(d)
    ensures RunStages(lib, a + b, img, c, d) == RunStages(lib, b, RunStages(lib, a, img, c, d), c, d)
  {
    if a == [] {
      assert a + b == b;
    } else {
      assert (a + b)[1..] == a[1..] + b;
      RunStagesAppend(lib, a[1..], b, ApplyStage(lib, a[0], img, c, d), c, d);
    }
  }

  /** Block `k` of the stage sequence: stage `StageOrder[k]` runs on the current image when enabled. */
  method StageBlock(lib: Library, k: nat, image: Image, c: Config, d: Draws, processed: Image, applied: seq<Stage>)
    returns (processed': Image, applied': seq<Stage>)
    requires 0.1 <= c.intensity && ValidDraws(d) && k < |StageOrder|
    requires applied == KeepEnabled(c.toggles, StageOrder[..k])
    requires processed == RunStages(lib, applied, image, c, d)
    ensures applied' == KeepEnabled(c.toggles, StageOrder[..k + 1])
    ensures processed' == RunStages(lib, applied', image, c, d)
  {
    KeepEnabledStep(c.toggles, k);
    var s := StageOrder[k];
    processed', applied' := processed, applied;
    if Enabled(c.toggles, s) {
      RunStagesAppend(lib, applied, [s], image, c, d);
      processed' := ApplyStage(lib, s, processed, c, d);
      applied' := applied + [s];
    }
  }

  /**
   * The per-image body of `apply_settings`: a copy of the image goes through
   * the seven conditional blocks (blur, contrast, brightness, gamma, hue,
   * saturation, noise), each rebinding it when its toggle is on. `applied`
   * lists the stages that ran.
   */
  method AugmentCopy(lib: Library, image: Image, c: Config, d: Draws) returns (processed: Image, applied: seq<Stage>)
    requires 0.1 <= c.intensity && ValidDraws(d)
    ensures applied == EnabledStages(c.toggles)
    ensures processed == RunStages(lib, applied, image, c, d)
  {
    assert StageOrder[..0] == [];
    processed, applied := StageBlock(lib, 0, image, c, d, image, []);
    processed, applied := StageBlock(lib, 1, image, c, d, processed, applied);
    processed, applied := StageBlock(lib, 2, image, c, d, processed, applied);
    processed, applied := StageBlock(lib, 3, image, c, d, processed, applied);
    processed, applied := StageBlock(lib, 4, image, c, d, processed, applied);
    processed, applied := StageBlock(lib, 5, image, c, d, processed, applied);
    processed, applied := StageBlock(lib, 6, image, c, d, processed, applied);
    assert StageOrder[..7] == StageOrder;
  }

  /** With every toggle off the processed image is the unmodified copy. */
  lemma AllTogglesOffIsIdentity(lib: Library, img: Image, c: Config, d: Draws)
    requires 0.1 <= c.intensity && ValidDraws(d)
    requires c.toggles == AllOff
    ensures Augmented(lib, img, c, d) == img
  {
    KeepEnabledNone(AllOff, StageOrder);
  }

  lemma {:induction false} RunStagesKeepsSize(lib: Library, stages: seq<Stage>, img: Image, c: Config, d: Draws)
    requires 0.1 <= c.intensity && ValidDraws(d)
    requires KeepsSize(lib)
    ensures RunStages(lib, stages, img, c, d).width == img.width
    ensures RunStages(lib, stages, img, c, d).height == img.height
  {
    if stages != [] {
      var next := ApplyStage(lib, stages[0], img, c, d);
      assert next.width == img.width && next.height == img.height;
      RunStagesKeepsSize(lib, stages[1..], next, c, d);
    }
  }

  /**
   * Whatever the toggles and draws, the output has the input's width and
   * height, provided the library calls keep sizes.
   */
  lemma AugmentedKeepsSize(lib: Library, img: Image, c: Config, d: Draws)
    requires 0.1 <= c.intensity && ValidDraws(d)
    requires KeepsSize(lib)
    ensures Augmented(lib, img, c, d).width == img.width
    ensures Augmented(lib, img, c, d).height == img.height
  {
    RunStagesKeepsSize(lib, EnabledStages(c.toggles), img, c, d);
  }

  /** With only the noise box ticked, noise is the one stage that runs. */
  lemma NoiseOnlyStages()
    ensures EnabledStages(AllOff.(noise := true)) == [Noise]
  {
    var t := AllOff.(noise := true);
    KeepEnabledNone(t, StageOrder[..6]);
    KeepEnabledStep(t, 6);
    assert StageOrder[..7] == StageOrder;
  }

  /**
   * An RGBA image with only noise enabled keeps its four channels, every
   * sample in 0..255, and is saved as PNG whatever the destination name.
   */
  lemma NoiseOnlyKeepsAlpha(lib: Library, img: Image, c: Config, d: Draws, path: string)
    requires 0.1 <= c.intensity && ValidDraws(d)
    requires img.mode == RGBA
    requires c.toggles == AllOff.(noise := true)
    ensures Augmented(lib, img, c, d).mode == RGBA
    ensures |Augmented(lib, img, c, d).samples| == |img.samples|
    ensures forall i :: 0 <= i < |img.samples| ==> 0 <= Augmented(lib, img, c, d).samples[i] <= 255
    ensures Paths.SaveFormat(Augmented(lib, img, c, d).mode, path) == PNG
  {
    NoiseOnlyStages();
    var out := ApplyGaussianNoise(img, d.noise);
    assert Augmented(lib, img, c, d) == RunStages(lib, [], out, c, d) == out;
  }

  /**
   * With hue on and saturation off the output is RGB, whatever the input
   * mode: an alpha channel does not survive the hue stage.
   */
  lemma HueDropsAlpha(lib: Library, img: Image, c: Config, d: Draws)
    requires 0.1 <= c.intensity && ValidDraws(d)
    requires c.toggles.hue && !c.toggles.saturation
    ensures Augmented(lib, img, c, d).mode == RGB
  {
    var t := c.toggles;
    var before := KeepEnabled(t, StageOrder[..4]);
    var after := KeepEnabled(t, StageOrder[5..]);
    KeepEnabledStep(t, 4);
    assert StageOrder == StageOrder[..5] + StageOrder[5..];
    KeepEnabledAppend(t, StageOrder[..5], StageOrder[5..]);
    assert EnabledStages(t) == before + [Hue] + after;
    RunStagesAppend(lib, before + [Hue], after, img, c, d);
    RunStagesAppend(lib, before, [Hue], img, c, d);
    var hued := RunStages(lib, before + [Hue], img, c, d);
    assert hued.mode == RGB;
    assert StageOrder[5..] == [Saturation] + [Noise];
    KeepEnabledAppend(t, [Saturation], [Noise]);
    assert KeepEnabled(t, [Saturation]) == [] + KeepEnabled(t, [Saturation][1..]);
    assert KeepEnabled(t, [Noise]) == Opt(t.noise, Noise) + KeepEnabled(t, [Noise][1..]);
    assert after == Opt(t.noise, Noise);
    assert Augmented(lib, img, c, d) == RunStages(lib, after, hued, c, d);
    if t.noise {
      assert RunStages(lib, after, hued, c, d) == RunStages(lib, [], ApplyStage(lib, Noise, hued, c, d), c, d);
    }
  }
}
