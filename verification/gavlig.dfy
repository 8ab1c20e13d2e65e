/**
 The single-pass "gavlig" CRT variant: its settings record, its one preset,
 builder operations, the `*` scaling operator (which leaves the glow
 threshold alone), and its node, which draws one pass whatever the settings
 say.
 */
module Gavlig {
  import opened Crt
  import PingPong

  /** `CrtGavligSettings`. */
  datatype Settings = Settings(
    vignetteStrength: real,
    vignetteAlpha: real,
    glowThreshold: real,
    glowStrength: real,
    grainStrength: real)

  /** The crate offers a single preset for this variant. */
  datatype Preset = Mild

  const MildSettings: Settings := Settings(
    vignetteStrength := 0.4,
    vignetteAlpha := 1.0,
    glowThreshold := 0.5,
    glowStrength := 2.4,
    grainStrength := 0.2)

  /** All five fields are non-negative. */
  predicate NonNegative(s: Settings) {
    && s.vignetteStrength >= 0.0
    && s.vignetteAlpha >= 0.0
    && s.glowThreshold >= 0.0
    && s.glowStrength >= 0.0
    && s.grainStrength >= 0.0
  }

  /** The preset table. The preset is non-negative and already glows. */
  function New(p: Preset): (r: Settings)
    ensures NonNegative(r)
    ensures r.glowStrength >= GlowFloor
    ensures r == MildSettings
  {
    match p
    case Mild => MildSettings
  }

  /**
   The `*` operator: the vignette and grain fields are multiplied by the
   clamped factor, the glow strength is multiplied and then floored at 1,
   and the glow threshold is carried over untouched.
   */
  function Scale(s: Settings, factor: real): (r: Settings)
    ensures r.glowThreshold == s.glowThreshold
    ensures r.glowStrength >= GlowFloor
    ensures r.glowStrength == ScaleGlow(s.glowStrength, factor)
    ensures r.vignetteStrength == ScaleAmount(s.vignetteStrength, factor)
    ensures r.vignetteAlpha == ScaleAmount(s.vignetteAlpha, factor)
    ensures r.grainStrength == ScaleAmount(s.grainStrength, factor)
  {
    Settings(
      vignetteStrength := ScaleAmount(s.vignetteStrength, factor),
      vignetteAlpha := ScaleAmount(s.vignetteAlpha, factor),
      glowThreshold := s.glowThreshold,
      glowStrength := ScaleGlow(s.glowStrength, factor),
      grainStrength := ScaleAmount(s.grainStrength, factor))
  }

  /** `with_scale` is the `*` operator in builder form. */
  function WithScale(s: Settings, factor: real): (r: Settings)
    ensures r == Scale(s, factor)
  {
    Scale(s, factor)
  }

  /** `set_preset_scaled`: replaces the prior value by a scaled preset. */
  function SetPresetScaled(prior: Settings, p: Preset, factor: real): (r: Settings)
    ensures r == WithScale(MildSettings, factor)
    ensures r.glowStrength >= GlowFloor && NonNegative(r)
    ensures factor == 1.0 ==> r == MildSettings
  {
    WithScale(New(p), factor)
  }

  /** `Default`. */
  function Default(): (r: Settings)
    ensures r == New(Mild)
  {
    MildSettings
  }

  // ---------------------------------------------------------------------
  // The node

  /** Readiness of the single cached pipeline and the two bindings. */
  datatype Resources = Resources(pass0: bool, bindings: Bindings) {
    predicate Ready() {
      pass0 && bindings.Ready()
    }
  }

  /**
   The passes `CrtGavligNode::run` draws: pass 0 once everything is ready,
   nothing otherwise. The settings are not consulted.
   */
  function Run(res: Resources, s: Settings): (passes: seq<nat>)
    ensures res.Ready() <==> passes == [0]
    ensures !res.Ready() <==> passes == []
  {
    if !res.pass0 then []
    else if !res.bindings.settings then []
    else if !res.bindings.globals then []
    else [0]
  }

  // ---------------------------------------------------------------------
  // Properties

  /**
   The `*` operator sees a factor only through its clamp: two factors that
   clamp alike give the same record.
   */
  lemma ScaleDependsOnlyOnClamp(s: Settings, f1: real, f2: real)
    requires ClampScale(f1) == ClampScale(f2)
    ensures Scale(s, f1) == Scale(s, f2)
  {
  }

  /** Every factor at or below `MIN_SCALE` acts exactly like `MIN_SCALE`. */
  lemma ScaleBelowMinIsMin(s: Settings, factor: real)
    requires factor <= MinScale
    ensures Scale(s, factor) == Scale(s, MinScale)
  {
    ScaleDependsOnlyOnClamp(s, factor, MinScale);
  }

  /** No factor changes the glow threshold. */
  lemma ThresholdUnscaled(s: Settings, f1: real, f2: real)
    ensures Scale(s, f1).glowThreshold == Scale(s, f2).glowThreshold == s.glowThreshold
  {
  }

  /** Scaling keeps a non-negative record non-negative. */
  lemma ScaleKeepsNonNegative(s: Settings, factor: real)
    requires NonNegative(s)
    ensures NonNegative(Scale(s, factor))
  {
  }

  /**
   The three scaled fields keep their value exactly when they are zero or
   the clamped factor is 1; a zero or negative factor cannot zero them.
   */
  lemma ScaledFieldsFollowFactor(s: Settings, factor: real)
    ensures Scale(s, factor).vignetteStrength == s.vignetteStrength <==> s.vignetteStrength == 0.0 || ClampScale(factor) == 1.0
    ensures Scale(s, factor).vignetteAlpha == s.vignetteAlpha <==> s.vignetteAlpha == 0.0 || ClampScale(factor) == 1.0
    ensures Scale(s, factor).grainStrength == s.grainStrength <==> s.grainStrength == 0.0 || ClampScale(factor) == 1.0
    ensures Scale(s, factor).vignetteStrength == 0.0 <==> s.vignetteStrength == 0.0
    ensures Scale(s, factor).vignetteAlpha == 0.0 <==> s.vignetteAlpha == 0.0
    ensures Scale(s, factor).grainStrength == 0.0 <==> s.grainStrength == 0.0
  {
    ScaleAmountFixed(s.vignetteStrength, factor);
    ScaleAmountFixed(s.vignetteAlpha, factor);
    ScaleAmountFixed(s.grainStrength, factor);
  }

  /** `with_scale(1.0)` returns the preset unchanged, and so does `new(Mild)`. */
  lemma MildIsFixed()
    ensures New(Mild) == Default() == MildSettings
    ensures WithScale(MildSettings, 1.0) == MildSettings
  {
    ScaleByOne(MildSettings.vignetteStrength);
    ScaleByOne(MildSettings.vignetteAlpha);
    ScaleByOne(MildSettings.glowStrength);
    ScaleByOne(MildSettings.grainStrength);
  }

  /** The prior value has no influence on `set_preset_scaled`. */
  lemma SetPresetScaledIgnoresPrior(prior1: Settings, prior2: Settings, p: Preset, factor: real)
    ensures SetPresetScaled(prior1, p, factor) == SetPresetScaled(prior2, p, factor)
  {
  }

  /** Which passes run depends on the resources alone, never on the settings. */
  lemma RunIgnoresSettings(res: Resources, s1: Settings, s2: Settings)
    ensures Run(res, s1) == Run(res, s2)
  {
  }

  /**
   What the node leaves in the view target: nothing at all when it aborts,
   otherwise the one pass applied to the incoming image, with one swap.
   */
  lemma RunImage<T>(res: Resources, s: Settings, t: PingPong.Target<T>, effect: (nat, T) -> T)
    ensures !res.Ready() ==> PingPong.RunPasses(t, Run(res, s), effect) == t
    ensures res.Ready() ==>
      PingPong.RunPasses(t, Run(res, s), effect).Source() == effect(0, t.Source())
      && PingPong.RunPasses(t, Run(res, s), effect).main == t.main.Other()
  {
    PingPong.RunPassesComposes(t, Run(res, s), effect);
    assert [0][..0] == [];
  }
}
