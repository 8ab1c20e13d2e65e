/**
 The single-pass "xor" CRT variant: its settings record (with a 2-vector
 aberration offset), presets, builder operations, the `*` scaling operator,
 and its node, which draws one pass whatever the settings say.
 */
module Xor {
  import opened Crt
  import PingPong

  /** A `Vec2`; `Vec2 * f32` scales both components. */
  datatype Vec2 = Vec2(x: real, y: real) {
    function Scale(factor: real): (v: Vec2)
      ensures v.x == ScaleAmount(x, factor) && v.y == ScaleAmount(y, factor)
    {
      Vec2(ScaleAmount(x, factor), ScaleAmount(y, factor))
    }
  }

  /** `CrtXorSettings`. */
  datatype Settings = Settings(
    maskIntensity: real,
    maskSize: real,
    maskBorder: real,
    aberrationOffset: Vec2,
    screenCurvature: real,
    screenVignette: real,
    pulseIntensity: real,
    pulseWidth: real,
    pulseRate: real,
    glowAmount: real)

  datatype Preset = Mild | Strong

  const StrongSettings: Settings := Settings(
    maskIntensity := 1.0,
    maskSize := 12.0,
    maskBorder := 0.8,
    aberrationOffset := Vec2(2.0, 0.0),
    screenCurvature := 0.08,
    screenVignette := 0.4,
    pulseIntensity := 0.03,
    pulseWidth := 60.0,
    pulseRate := 20.0,
    glowAmount := 3.0)

  const MildSettings: Settings := Settings(
    maskIntensity := 0.1,
    maskSize := 2.0,
    maskBorder := 0.2,
    aberrationOffset := Vec2(1.0, 0.0),
    screenCurvature := 0.013,
    screenVignette := 0.1,
    pulseIntensity := 0.03,
    pulseWidth := 60.0,
    pulseRate := 5.0,
    glowAmount := 1.7)

  /** Every field, both offset components included, is non-negative. */
  predicate NonNegative(s: Settings) {
    && s.maskIntensity >= 0.0
    && s.maskSize >= 0.0
    && s.maskBorder >= 0.0
    && s.aberrationOffset.x >= 0.0
    && s.aberrationOffset.y >= 0.0
    && s.screenCurvature >= 0.0
    && s.screenVignette >= 0.0
    && s.pulseIntensity >= 0.0
    && s.pulseWidth >= 0.0
    && s.pulseRate >= 0.0
    && s.glowAmount >= 0.0
  }

  /** The preset table. Every preset is non-negative and already glows. */
  function New(p: Preset): (r: Settings)
    ensures NonNegative(r)
    ensures r.glowAmount >= GlowFloor
    ensures p.Mild? ==> r == MildSettings
    ensures p.Strong? ==> r == StrongSettings
  {
    match p
    case Mild => MildSettings
    case Strong => StrongSettings
  }

  /**
   The `*` operator: all nine non-glow fields (the offset per component,
   and the pulse timing fields too) are multiplied by the clamped factor;
   the glow field is multiplied and then floored at 1.
   */
  function Scale(s: Settings, factor: real): (r: Settings)
    ensures r.glowAmount >= GlowFloor
    ensures r.glowAmount == ScaleGlow(s.glowAmount, factor)
    ensures r.maskIntensity == ScaleAmount(s.maskIntensity, factor)
    ensures r.maskSize == ScaleAmount(s.maskSize, factor)
    ensures r.maskBorder == ScaleAmount(s.maskBorder, factor)
    ensures r.aberrationOffset.x == ScaleAmount(s.aberrationOffset.x, factor)
    ensures r.aberrationOffset.y == ScaleAmount(s.aberrationOffset.y, factor)
    ensures r.screenCurvature == ScaleAmount(s.screenCurvature, factor)
    ensures r.screenVignette == ScaleAmount(s.screenVignette, factor)
    ensures r.pulseIntensity == ScaleAmount(s.pulseIntensity, factor)
    ensures r.pulseWidth == ScaleAmount(s.pulseWidth, factor)
    ensures r.pulseRate == ScaleAmount(s.pulseRate, factor)
  {
    Settings(
      maskIntensity := ScaleAmount(s.maskIntensity, factor),
      maskSize := ScaleAmount(s.maskSize, factor),
      maskBorder := ScaleAmount(s.maskBorder, factor),
      aberrationOffset := s.aberrationOffset.Scale(factor),
      screenCurvature := ScaleAmount(s.screenCurvature, factor),
      screenVignette := ScaleAmount(s.screenVignette, factor),
      pulseIntensity := ScaleAmount(s.pulseIntensity, factor),
      pulseWidth := ScaleAmount(s.pulseWidth, factor),
      pulseRate := ScaleAmount(s.pulseRate, factor),
      glowAmount := ScaleGlow(s.glowAmount, factor))
  }

  /** `with_scale` is the `*` operator in builder form. */
  function WithScale(s: Settings, factor: real): (r: Settings)
    ensures r == Scale(s, factor)
  {
    Scale(s, factor)
  }

  /** `set_preset_scaled`: replaces the prior value by a scaled preset. */
  function SetPresetScaled(prior: Settings, p: Preset, factor: real): (r: Settings)
    ensures r == WithScale(New(p), factor)
    ensures r.glowAmount >= GlowFloor && NonNegative(r)
    ensures factor == 1.0 ==> r == New(p)
  {
    WithScale(New(p), factor)
  }

  /** `Default`. */
  function Default(): (r: Settings)
    ensures r == New(Strong)
  {
    StrongSettings
  }

  // ---------------------------------------------------------------------
  // The node

  /** Readiness of the single cached pipeline and the two bindings. */
  datatype Resources = Resources(pass0: bool, bindings: Bindings) {
    predicate Ready() {
      pass0 && bindings.Ready()
    }
  }

  /**
   The passes `CrtXorNode::run` draws: pass 0 once everything is ready,
   nothing otherwise. The settings are not consulted.
   */
  function Run(res: Resources, s: Settings): (passes: seq<nat>)
    ensures res.Ready() <==> passes == [0]
    ensures !res.Ready() <==> passes == []
  {
    if !res.pass0 then []
    else if !res.bindings.settings then []
    else if !res.bindings.globals then []
    else [0]
  }

  // ---------------------------------------------------------------------
  // Properties

  /**
   The `*` operator sees a factor only through its clamp: two factors that
   clamp alike give the same record.
   */
  lemma ScaleDependsOnlyOnClamp(s: Settings, f1: real, f2: real)
    requires ClampScale(f1) == ClampScale(f2)
    ensures Scale(s, f1) == Scale(s, f2)
  {
  }

  /** Every factor at or below `MIN_SCALE` acts exactly like `MIN_SCALE`. */
  lemma ScaleBelowMinIsMin(s: Settings, factor: real)
    requires factor <= MinScale
    ensures Scale(s, factor) == Scale(s, MinScale)
  {
    ScaleDependsOnlyOnClamp(s, factor, MinScale);
  }

  /** The offset is scaled as a vector: each component by the clamped factor. */
  lemma OffsetScaledPerComponent(s: Settings, factor: real)
    ensures Scale(s, factor).aberrationOffset
         == Vec2(s.aberrationOffset.x * ClampScale(factor), s.aberrationOffset.y * ClampScale(factor))
  {
  }

  /** Scaling keeps a non-negative record non-negative. */
  lemma ScaleKeepsNonNegative(s: Settings, factor: real)
    requires NonNegative(s)
    ensures NonNegative(Scale(s, factor))
  {
  }

  /**
   No field passes through: each non-glow field, the pulse timing fields and
   both offset components included, keeps its value exactly when it is zero
   or the clamped factor is 1.
   */
  lemma NoFieldPassesThrough(s: Settings, factor: real)
    ensures Scale(s, factor).maskIntensity == s.maskIntensity <==> s.maskIntensity == 0.0 || ClampScale(factor) == 1.0
    ensures Scale(s, factor).maskSize == s.maskSize <==> s.maskSize == 0.0 || ClampScale(factor) == 1.0
    ensures Scale(s, factor).maskBorder == s.maskBorder <==> s.maskBorder == 0.0 || ClampScale(factor) == 1.0
    ensures Scale(s, factor).aberrationOffset.x == s.aberrationOffset.x <==> s.aberrationOffset.x == 0.0 || ClampScale(factor) == 1.0
    ensures Scale(s, factor).aberrationOffset.y == s.aberrationOffset.y <==> s.aberrationOffset.y == 0.0 || ClampScale(factor) == 1.0
    ensures Scale(s, factor).screenCurvature == s.screenCurvature <==> s.screenCurvature == 0.0 || ClampScale(factor) == 1.0
    ensures Scale(s, factor).screenVignette == s.screenVignette <==> s.screenVignette == 0.0 || ClampScale(factor) == 1.0
    ensures Scale(s, factor).pulseIntensity == s.pulseIntensity <==> s.pulseIntensity == 0.0 || ClampScale(factor) == 1.0
    ensures Scale(s, factor).pulseWidth == s.pulseWidth <==> s.pulseWidth == 0.0 || ClampScale(factor) == 1.0
    ensures Scale(s, factor).pulseRate == s.pulseRate <==> s.pulseRate == 0.0 || ClampScale(factor) == 1.0
  {
    ScaleAmountFixed(s.maskIntensity, factor);
    ScaleAmountFixed(s.maskSize, factor);
    ScaleAmountFixed(s.maskBorder, factor);
    ScaleAmountFixed(s.aberrationOffset.x, factor);
    ScaleAmountFixed(s.aberrationOffset.y, factor);
    ScaleAmountFixed(s.screenCurvature, factor);
    ScaleAmountFixed(s.screenVignette, factor);
    ScaleAmountFixed(s.pulseIntensity, factor);
    ScaleAmountFixed(s.pulseWidth, factor);
    ScaleAmountFixed(s.pulseRate, factor);
  }

  /** Scaling by 1 changes nothing in a record whose glow is already at least 1. */
  lemma ScaleByOneIsIdentity(s: Settings)
    requires s.glowAmount >= GlowFloor
    ensures Scale(s, 1.0) == s
  {
  }

  /** `with_scale(1.0)` returns either preset unchanged. */
  lemma WithScaleOneOnPresets(p: Preset)
    ensures WithScale(New(p), 1.0) == New(p)
  {
    ScaleByOneIsIdentity(New(p));
  }

  /** The prior value has no influence on `set_preset_scaled`. */
  lemma SetPresetScaledIgnoresPrior(prior1: Settings, prior2: Settings, p: Preset, factor: real)
    ensures SetPresetScaled(prior1, p, factor) == SetPresetScaled(prior2, p, factor)
  {
  }

  /** Which passes run depends on the resources alone, never on the settings. */
  lemma RunIgnoresSettings(res: Resources, s1: Settings, s2: Settings)
    ensures Run(res, s1) == Run(res, s2)
  {
  }

  /**
   What the node leaves in the view target: nothing at all when it aborts,
   otherwise the one pass applied to the incoming image, with one swap.
   */
  lemma RunImage<T>(res: Resources, s: Settings, t: PingPong.Target<T>, effect: (nat, T) -> T)
    ensures !res.Ready() ==> PingPong.RunPasses(t, Run(res, s), effect) == t
    ensures res.Ready() ==>
      PingPong.RunPasses(t, Run(res, s), effect).Source() == effect(0, t.Source())
      && PingPong.RunPasses(t, Run(res, s), effect).main == t.main.Other()
  {
    PingPong.RunPassesComposes(t, Run(res, s), effect);
    assert [0][..0] == [];
  }
}
