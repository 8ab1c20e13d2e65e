/**
 The three-pass "endesga" CRT variant: its settings record, presets, the
 builder operations, the `*` scaling operator, and which passes its node
 draws in a frame.
 */
module Endesga {
  import opened Crt
  import PingPong

  /** `CrtEndesgaSettings`: eight effect intensities. */
  datatype Settings = Settings(
    aberrationAmount: real,
    noiseAmount: real,
    vignetteAmount: real,
    roundedAmount: real,
    pixelateAmount: real,
    maskAmount: real,
    distortionAmount: real,
    glowAmount: real)

  datatype Preset = Mild | Strong

  const StrongSettings: Settings := Settings(
    aberrationAmount := 0.07,
    noiseAmount := 0.7,
    vignetteAmount := 0.7,
    roundedAmount := 0.07,
    pixelateAmount := 0.7,
    maskAmount := 0.7,
    distortionAmount := 0.07,
    glowAmount := 3.0)

  const MildSettings: Settings := Settings(
    aberrationAmount := 0.003,
    noiseAmount := 0.05,
    vignetteAmount := 0.7,
    roundedAmount := 0.03,
    pixelateAmount := 0.01,
    maskAmount := 0.01,
    distortionAmount := 0.017,
    glowAmount := 1.9)

  /** All eight intensities are non-negative. */
  predicate NonNegative(s: Settings) {
    && s.aberrationAmount >= 0.0
    && s.noiseAmount >= 0.0
    && s.vignetteAmount >= 0.0
    && s.roundedAmount >= 0.0
    && s.pixelateAmount >= 0.0
    && s.maskAmount >= 0.0
    && s.distortionAmount >= 0.0
    && s.glowAmount >= 0.0
  }

  /** The preset table. Every preset is non-negative and already glows. */
  function New(p: Preset): (r: Settings)
    ensures NonNegative(r)
    ensures r.glowAmount >= GlowFloor
    ensures p.Mild? ==> r == MildSettings
    ensures p.Strong? ==> r == StrongSettings
  {
    match p
    case Mild => MildSettings
    case Strong => StrongSettings
  }

  /**
   The `*` operator: every non-glow field is multiplied by the clamped
   factor; the glow field is multiplied and then floored at 1.
   */
  function Scale(s: Settings, factor: real): (r: Settings)
    ensures r.glowAmount >= GlowFloor
    ensures r.aberrationAmount == ScaleAmount(s.aberrationAmount, factor)
    ensures r.noiseAmount == ScaleAmount(s.noiseAmount, factor)
    ensures r.vignetteAmount == ScaleAmount(s.vignetteAmount, factor)
    ensures r.roundedAmount == ScaleAmount(s.roundedAmount, factor)
    ensures r.pixelateAmount == ScaleAmount(s.pixelateAmount, factor)
    ensures r.maskAmount == ScaleAmount(s.maskAmount, factor)
    ensures r.distortionAmount == ScaleAmount(s.distortionAmount, factor)
    ensures r.glowAmount == ScaleGlow(s.glowAmount, factor)
  {
    Settings(
      aberrationAmount := ScaleAmount(s.aberrationAmount, factor),
      noiseAmount := ScaleAmount(s.noiseAmount, factor),
      vignetteAmount := ScaleAmount(s.vignetteAmount, factor),
      roundedAmount := ScaleAmount(s.roundedAmount, factor),
      pixelateAmount := ScaleAmount(s.pixelateAmount, factor),
      maskAmount := ScaleAmount(s.maskAmount, factor),
      distortionAmount := ScaleAmount(s.distortionAmount, factor),
      glowAmount := ScaleGlow(s.glowAmount, factor))
  }

  /** `with_scale` is the `*` operator in builder form. */
  function WithScale(s: Settings, factor: real): (r: Settings)
    ensures r == Scale(s, factor)
  {
    Scale(s, factor)
  }

  /** Turns off the pixelation/mask sub-effect. */
  function WithoutPixelate(s: Settings): (r: Settings)
    ensures r.pixelateAmount == 0.0 && r.maskAmount == 0.0
    ensures r.(pixelateAmount := s.pixelateAmount, maskAmount := s.maskAmount) == s
  {
    s.(pixelateAmount := 0.0, maskAmount := 0.0)
  }

  /** `set_preset_scaled`: replaces the prior value by a scaled preset. */
  function SetPresetScaled(prior: Settings, p: Preset, factor: real): (r: Settings)
    ensures r == WithScale(New(p), factor)
    ensures r.glowAmount >= GlowFloor && NonNegative(r)
    ensures factor == 1.0 ==> r == New(p)
  {
    WithScale(New(p), factor)
  }

  /** `Default`. */
  function Default(): (r: Settings)
    ensures r == New(Strong)
  {
    StrongSettings
  }

  // ---------------------------------------------------------------------
  // The node

  /** Readiness of the three cached pipelines and the two bindings. */
  datatype Resources = Resources(pass0: bool, pass1: bool, pass2: bool, bindings: Bindings) {
    predicate Ready() {
      pass0 && pass1 && pass2 && bindings.Ready()
    }
  }

  /** The skip predicate of pass 1: both mask-governing amounts must exceed `MIN_AMOUNT`. */
  predicate MaskPassEnabled(s: Settings) {
    s.pixelateAmount > MinAmount && s.maskAmount > MinAmount
  }

  /**
   The passes `CrtEndesgaNode::run` draws, in order. Any missing pipeline
   (pass 1's included, even when pass 1 would be skipped) or binding makes the
   node return before drawing anything.
   */
  function Run(res: Resources, s: Settings): (passes: seq<nat>)
    ensures !res.Ready() ==> passes == []
    ensures res.Ready() ==> (passes == [0, 1, 2] <==> MaskPassEnabled(s))
    ensures res.Ready() ==> (passes == [0, 2] <==> !MaskPassEnabled(s))
  {
    if !res.pass0 then []
    else if !res.pass1 then []
    else if !res.pass2 then []
    else if !res.bindings.settings then []
    else if !res.bindings.globals then []
    else [0] + (if MaskPassEnabled(s) then [1] else []) + [2]
  }

  // ---------------------------------------------------------------------
  // Properties of the scaling algebra

  /**
   The `*` operator sees a factor only through its clamp: two factors that
   clamp alike give the same record.
   */
  lemma ScaleDependsOnlyOnClamp(s: Settings, f1: real, f2: real)
    requires ClampScale(f1) == ClampScale(f2)
    ensures Scale(s, f1) == Scale(s, f2)
  {
  }

  /** Every factor at or below `MIN_SCALE` acts exactly like `MIN_SCALE`. */
  lemma ScaleBelowMinIsMin(s: Settings, factor: real)
    requires factor <= MinScale
    ensures Scale(s, factor) == Scale(s, MinScale)
  {
    ScaleDependsOnlyOnClamp(s, factor, MinScale);
  }

  /** Scaling keeps a non-negative record non-negative. */
  lemma ScaleKeepsNonNegative(s: Settings, factor: real)
    requires NonNegative(s)
    ensures NonNegative(Scale(s, factor))
  {
  }

  /**
   No scale factor can switch a sub-effect off: a non-glow field is zero
   after scaling exactly when it was zero before.
   */
  lemma ScaleNeverZeroes(s: Settings, factor: real)
    ensures Scale(s, factor).aberrationAmount == 0.0 <==> s.aberrationAmount == 0.0
    ensures Scale(s, factor).noiseAmount == 0.0 <==> s.noiseAmount == 0.0
    ensures Scale(s, factor).vignetteAmount == 0.0 <==> s.vignetteAmount == 0.0
    ensures Scale(s, factor).roundedAmount == 0.0 <==> s.roundedAmount == 0.0
    ensures Scale(s, factor).pixelateAmount == 0.0 <==> s.pixelateAmount == 0.0
    ensures Scale(s, factor).maskAmount == 0.0 <==> s.maskAmount == 0.0
    ensures Scale(s, factor).distortionAmount == 0.0 <==> s.distortionAmount == 0.0
  {
  }

  /** Scaling by 1 changes nothing in a record whose glow is already at least 1. */
  lemma ScaleByOneIsIdentity(s: Settings)
    requires s.glowAmount >= GlowFloor
    ensures Scale(s, 1.0) == s
  {
  }

  /** `with_scale(1.0)` returns either preset unchanged. */
  lemma WithScaleOneOnPresets(p: Preset)
    ensures WithScale(New(p), 1.0) == New(p)
  {
    ScaleByOneIsIdentity(New(p));
  }

  /** A larger factor never weakens any field of a non-negative record. */
  lemma ScaleMonotone(s: Settings, f1: real, f2: real)
    requires NonNegative(s)
    requires f1 <= f2
    ensures Scale(s, f1).aberrationAmount <= Scale(s, f2).aberrationAmount
    ensures Scale(s, f1).noiseAmount <= Scale(s, f2).noiseAmount
    ensures Scale(s, f1).vignetteAmount <= Scale(s, f2).vignetteAmount
    ensures Scale(s, f1).roundedAmount <= Scale(s, f2).roundedAmount
    ensures Scale(s, f1).pixelateAmount <= Scale(s, f2).pixelateAmount
    ensures Scale(s, f1).maskAmount <= Scale(s, f2).maskAmount
    ensures Scale(s, f1).distortionAmount <= Scale(s, f2).distortionAmount
    ensures Scale(s, f1).glowAmount <= Scale(s, f2).glowAmount
  {
    ScaleAmountMonotone(s.aberrationAmount, f1, f2);
    ScaleAmountMonotone(s.noiseAmount, f1, f2);
    ScaleAmountMonotone(s.vignetteAmount, f1, f2);
    ScaleAmountMonotone(s.roundedAmount, f1, f2);
    ScaleAmountMonotone(s.pixelateAmount, f1, f2);
    ScaleAmountMonotone(s.maskAmount, f1, f2);
    ScaleAmountMonotone(s.distortionAmount, f1, f2);
    ScaleGlowMonotone(s.glowAmount, f1, f2);
  }

  /**
   Damping composes: scaling by any `a` at or above `MIN_SCALE` and then by
   a damping `b` within [`MIN_SCALE`, 1], with `a * b` still at or above
   `MIN_SCALE`, is scaling once by `a * b`. (An amplifying second factor does
   not compose, because the glow floor is applied between the two steps.)
   */
  lemma ScaleDampingComposes(s: Settings, a: real, b: real)
    requires MinScale <= a && MinScale <= b <= 1.0
    requires a * b >= MinScale
    ensures Scale(Scale(s, a), b) == Scale(s, a * b)
  {
    ScaleDamping(s.aberrationAmount, a, b);
    ScaleDamping(s.noiseAmount, a, b);
    ScaleDamping(s.vignetteAmount, a, b);
    ScaleDamping(s.roundedAmount, a, b);
    ScaleDamping(s.pixelateAmount, a, b);
    ScaleDamping(s.maskAmount, a, b);
    ScaleDamping(s.distortionAmount, a, b);
    ScaleDamping(s.glowAmount, a, b);
  }

  /**
   Scale 0 is clamped to 0.01: the strong preset's aberration shrinks to
   0.0007 while its glow stops at the floor of 1.
   */
  lemma StrongAtZeroScale()
    ensures WithScale(New(Strong), 0.0).aberrationAmount == 0.0007
    ensures WithScale(New(Strong), 0.0).glowAmount == 1.0
  {
    var s := New(Strong);
    assert s.aberrationAmount == 0.07 && s.glowAmount == 3.0;
    assert Scale(s, 0.0).aberrationAmount == ScaleAmount(0.07, 0.0);
    assert Scale(s, 0.0).glowAmount == ScaleGlow(3.0, 0.0);
  }

  /** Amplification does not compose: a witness record and pair of factors. */
  lemma ScaleAmplifyingDoesNotCompose()
    ensures Scale(Scale(StrongSettings, 0.1), 4.0) != Scale(StrongSettings, 0.4)
  {
    assert Scale(StrongSettings, 0.4).glowAmount == 1.2;
    assert Scale(StrongSettings, 0.1).glowAmount == 1.0;
    assert Scale(Scale(StrongSettings, 0.1), 4.0).glowAmount == 4.0;
  }

  // ---------------------------------------------------------------------
  // Properties of the builder operations

  /** `without_pixelate` is idempotent. */
  lemma WithoutPixelateIdempotent(s: Settings)
    ensures WithoutPixelate(WithoutPixelate(s)) == WithoutPixelate(s)
  {
  }

  /** Scaling and zeroing the mask sub-effect commute. */
  lemma WithoutPixelateCommutesWithScale(s: Settings, factor: real)
    ensures WithoutPixelate(Scale(s, factor)) == Scale(WithoutPixelate(s), factor)
  {
  }

  /** The prior value has no influence on `set_preset_scaled`. */
  lemma SetPresetScaledIgnoresPrior(prior1: Settings, prior2: Settings, p: Preset, factor: real)
    ensures SetPresetScaled(prior1, p, factor) == SetPresetScaled(prior2, p, factor)
  {
  }

  // ---------------------------------------------------------------------
  // Properties of pass selection

  /** Executed passes are a strictly increasing selection of 0, 1 and 2. */
  lemma RunPassesOrdered(res: Resources, s: Settings)
    ensures forall i :: 0 <= i < |Run(res, s)| ==> Run(res, s)[i] <= 2
    ensures forall i, j :: 0 <= i < j < |Run(res, s)| ==> Run(res, s)[i] < Run(res, s)[j]
    ensures res.Ready() ==> 0 in Run(res, s) && 2 in Run(res, s)
  {
  }

  /** An amount of exactly `MIN_AMOUNT` skips pass 1: the comparison is strict. */
  lemma ThresholdIsStrict(res: Resources, s: Settings)
    requires res.Ready()
    requires s.pixelateAmount == MinAmount || s.maskAmount == MinAmount
    ensures Run(res, s) == [0, 2]
  {
  }

  /** After `without_pixelate`, pass 1 never runs, whatever else was set. */
  lemma WithoutPixelateSkipsMaskPass(res: Resources, s: Settings)
    requires res.Ready()
    ensures Run(res, WithoutPixelate(s)) == [0, 2]
  {
  }

  /** The mild preset keeps its mask pass exactly when scaled by more than 0.1. */
  lemma MildMaskPassThreshold(res: Resources, factor: real)
    requires res.Ready()
    ensures Run(res, WithScale(New(Mild), factor)) == [0, 1, 2] <==> factor > 0.1
  {
    var c := ClampScale(factor);
    assert factor > 0.1 <==> c > 0.1;
    assert MildSettings.pixelateAmount * c > MinAmount <==> c > 0.1;
  }

  /** The strong preset keeps its mask pass at every scale, however small. */
  lemma StrongAlwaysMasks(res: Resources, factor: real)
    requires res.Ready()
    ensures Run(res, WithScale(New(Strong), factor)) == [0, 1, 2]
  {
    var c := ClampScale(factor);
    assert StrongSettings.pixelateAmount * c >= 0.7 * MinScale;
  }

  // ---------------------------------------------------------------------
  // Chaining the executed passes

  /**
   What the node leaves in the view target: nothing at all when it aborts,
   otherwise the composition of pass 0, pass 1 when enabled, and pass 2,
   each applied to its predecessor's output, with the main texture swapped
   once per executed pass.
   */
  lemma RunImage<T>(res: Resources, s: Settings, t: PingPong.Target<T>, effect: (nat, T) -> T)
    ensures !res.Ready() ==> PingPong.RunPasses(t, Run(res, s), effect) == t
    ensures res.Ready() && MaskPassEnabled(s) ==>
      PingPong.RunPasses(t, Run(res, s), effect).Source()
        == effect(2, effect(1, effect(0, t.Source())))
      && PingPong.RunPasses(t, Run(res, s), effect).main == t.main.Other()
    ensures res.Ready() && !MaskPassEnabled(s) ==>
      PingPong.RunPasses(t, Run(res, s), effect).Source()
        == effect(2, effect(0, t.Source()))
      && PingPong.RunPasses(t, Run(res, s), effect).main == t.main
  {
    var passes := Run(res, s);
    PingPong.RunPassesComposes(t, passes, effect);
    if res.Ready() {
      var img := t.Source();
      assert PingPong.Composite([0], img, effect) == effect(0, img) by {
        assert [0][..0] == [];
      }
      if MaskPassEnabled(s) {
        assert PingPong.Composite([0, 1], img, effect) == effect(1, effect(0, img)) by {
          assert [0, 1][..1] == [0];
        }
        assert [0, 1, 2][..2] == [0, 1];
      } else {
        assert [0, 2][..1] == [0];
      }
    }
  }
}
