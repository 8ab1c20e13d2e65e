# bevy_crt_galore: settings algebra and pass selection, in Dafny

This project models the pure logic behind the three CRT post-process variants
of the `bevy_crt_galore` crate: "endesga" (three passes), "xor" and "gavlig"
(one pass each). It covers the following pieces:

- each variant's settings record and its preset table (`MILD`, `STRONG`);
- the overloaded `*` operator that scales a record, and the builder operations
  `new`, `with_scale`, `set_preset_scaled`, `Default` and endesga's
  `without_pixelate`;
- the decision, inside each node's `run`, of which full-screen passes are
  drawn in a frame;
- how the executed passes chain through the view target's two ping-pong
  textures.

Modules:

- `Crt` (`crt.dfy`) holds the crate-wide constants `MIN_AMOUNT = 0.001` and
  `MIN_SCALE = 0.01`. It also holds the scale clamp `factor.max(MIN_SCALE)`,
  the glow floor `x.max(1.0)` and the per-field scaling every variant shares.
- `PingPong` (`pingpong.dfy`) is an abstract view target with two textures.
  Each executed pass samples the current texture and draws into the other
  one, which then becomes current. The shader math of a pass is a parameter
  `effect`.
- `Endesga`, `Xor` and `Gavlig` model one source file each.

Settings fields are `real`. The node's result is the sequence of pass
indices it draws, and an aborted node draws the empty sequence. Readiness of
each cached pipeline and of the two uniform bindings is an input flag.
`set_preset_scaled(&mut self, …)` is a function from the prior value to the
new one.

Two facts of the code that the model keeps:

- Pass 1 of endesga runs only when both `pixelate_amount` and `mask_amount`
  are strictly greater than `MIN_AMOUNT` (0.001), so an amount of exactly
  0.001 on either field skips it (src/endesga/mod.rs:241).
- None of the three settings records has per-frame fields; every field is a
  user-set amount.

## Model

| member | source | states |
|---|---|---|
| Crt.ClampScale | src/endesga/mod.rs:141 | the factor used is at least MIN_SCALE, equals the given factor when that is at least MIN_SCALE, and is MIN_SCALE otherwise |
| Crt.FloorGlow | src/endesga/mod.rs:143 | a glow value is at least 1, unchanged when already at least 1, and exactly 1 otherwise |
| Crt.ScaleAmount | src/endesga/mod.rs:145-152 | a scaled field is the field times the factor (or times MIN_SCALE below it); it is zero exactly when the input is zero, and non-negative inputs stay non-negative |
| Crt.ScaleGlow | src/endesga/mod.rs:143 | a scaled glow field is at least 1 and at least the plain scaled value, and is one of the two |
| Crt.ScaleAmountMonotone | src/endesga/mod.rs:141-152 | a larger factor never gives a non-negative field a smaller value |
| Crt.ScaleGlowMonotone | src/endesga/mod.rs:141-143 | a larger factor never gives a glow field a smaller value |
| Crt.FloorGlowMonotone | src/endesga/mod.rs:143 | the glow floor preserves order |
| Crt.ScaleByOne | src/endesga/mod.rs:141-153 | factor 1 leaves a field unchanged, and a glow field that is already at least 1 |
| Crt.ScaleDamping | src/endesga/mod.rs:141-153 | a factor a at least MIN_SCALE followed by a factor b in [MIN_SCALE, 1], with a*b at least MIN_SCALE, compose into a*b, for plain and for glow fields |
| Crt.ScaleAmountFixed | src/xor/mod.rs:141-150 | a scaled field keeps its value exactly when it is zero or the clamped factor is 1 |
| PingPong.Draw | src/endesga/mod.rs:204-238 | one pass leaves its input in the old texture, writes the pass's output into the other one and makes that texture current |
| PingPong.RunPasses | src/endesga/mod.rs:240-244 | after n executed passes the current texture has swapped n times; an empty pass list leaves the target untouched |
| PingPong.CompositeAppend | src/endesga/mod.rs:240-244 | running one pass list and then another applies their composed effects |
| PingPong.RunPassesComposes | src/endesga/mod.rs:240-244 | the current texture after a node holds the executed passes' effects composed in order on the incoming image, each pass consuming the previous pass's output |
| PingPong.RunPassesSplit | src/endesga/mod.rs:240-244 | running a pass list is running any prefix of it and then the rest on the prefix's result |
| PingPong.ScheduleMatchesRunPasses | src/endesga/mod.rs:204-205 | draw call i of a schedule is exactly the step of RunPasses from the first i passes to the first i+1: it samples the texture current before, draws pass i's output into the one current after, and leaves the sampled texture alone |
| PingPong.Schedule | src/endesga/mod.rs:204-205 | the draw calls for a pass list: one per pass, in order, call i sampling the texture current after i swaps and drawing into the other one, so each samples what the previous one drew |
| Endesga.New | src/endesga/mod.rs:92-119 | `new` returns the MILD or STRONG table; both are non-negative with glow at least 1 |
| Endesga.Scale | src/endesga/mod.rs:137-156 | `*` gives a glow of at least 1, the floored scaled glow, and each of the seven other fields scaled by the clamped factor |
| Endesga.WithScale | src/endesga/mod.rs:121-124 | `with_scale` is the `*` operator |
| Endesga.WithoutPixelate | src/endesga/mod.rs:126-130 | pixelate and mask amounts become 0; restoring those two fields gives back the input, so nothing else changed |
| Endesga.SetPresetScaled | src/endesga/mod.rs:132-134 | the new value is the scaled preset, non-negative with glow at least 1, and the bare preset at factor 1 |
| Endesga.Default | src/endesga/mod.rs:158-162 | `Default` is `new(Strong)` |
| Endesga.Run | src/endesga/mod.rs:181-247 | a missing pipeline (pass 1's included) or binding draws nothing; otherwise the passes are [0, 1, 2] iff both mask amounts exceed 0.001, and [0, 2] otherwise |
| Endesga.ScaleDependsOnlyOnClamp | src/endesga/mod.rs:137-156 | the `*` operator sees the factor only through its clamp: two factors with the same clamp give the same record |
| Endesga.ScaleBelowMinIsMin | src/endesga/mod.rs:141 | any factor at or below MIN_SCALE gives the same record as MIN_SCALE |
| Endesga.ScaleKeepsNonNegative | src/endesga/mod.rs:145-153 | scaling keeps a non-negative record non-negative |
| Endesga.ScaleNeverZeroes | src/endesga/mod.rs:141-152 | no factor can zero a non-glow field that was not zero already |
| Endesga.ScaleByOneIsIdentity | src/endesga/mod.rs:137-156 | factor 1 leaves a record whose glow is at least 1 unchanged |
| Endesga.WithScaleOneOnPresets | src/endesga/mod.rs:92-124 | `with_scale(1.0)` on MILD or STRONG returns the preset unchanged |
| Endesga.ScaleMonotone | src/endesga/mod.rs:141-153 | for a non-negative record, a larger factor gives every field, glow included, at least as much |
| Endesga.ScaleDampingComposes | src/endesga/mod.rs:137-156 | scaling by a (at least MIN_SCALE) then by b in [MIN_SCALE, 1], with a*b at least MIN_SCALE, equals scaling once by a*b |
| Endesga.StrongAtZeroScale | src/endesga/mod.rs:92-101 | STRONG at factor 0 has aberration 0.0007 and glow exactly 1 |
| Endesga.ScaleAmplifyingDoesNotCompose | src/endesga/mod.rs:143 | because the glow is floored between the two steps, STRONG scaled by 0.1 then 4 differs from STRONG scaled by 0.4 |
| Endesga.WithoutPixelateIdempotent | src/endesga/mod.rs:126-130 | applying `without_pixelate` twice is applying it once |
| Endesga.WithoutPixelateCommutesWithScale | src/endesga/mod.rs:126-156 | zeroing the mask sub-effect and scaling commute |
| Endesga.SetPresetScaledIgnoresPrior | src/endesga/mod.rs:132-134 | the prior value has no influence on `set_preset_scaled` |
| Endesga.RunPassesOrdered | src/endesga/mod.rs:240-244 | executed pass indices are strictly increasing, at most 2, and include 0 and 2 whenever the node is ready |
| Endesga.ThresholdIsStrict | src/endesga/mod.rs:241 | a mask amount of exactly 0.001 skips pass 1 |
| Endesga.WithoutPixelateSkipsMaskPass | src/endesga/mod.rs:126-130 | after `without_pixelate` a ready node always draws [0, 2] |
| Endesga.MildMaskPassThreshold | src/endesga/mod.rs:103-112 | MILD scaled by a factor keeps pass 1 iff the factor exceeds 0.1 |
| Endesga.StrongAlwaysMasks | src/endesga/mod.rs:92-101 | STRONG keeps pass 1 at every factor, however small |
| Endesga.RunImage | src/endesga/mod.rs:192-244 | an aborted node leaves the target untouched; otherwise the result is pass 2 after (pass 1 after) pass 0 on the input image, with the current texture swapped once per executed pass |
| Xor.New | src/xor/mod.rs:90-121 | `new` returns the MILD or STRONG table; both are non-negative with glow at least 1 |
| Xor.Scale | src/xor/mod.rs:133-154 | `*` gives a glow of at least 1 and scales all nine other fields, both offset components, pulse width and pulse rate included, by the clamped factor |
| Xor.WithScale | src/xor/mod.rs:123-126 | `with_scale` is the `*` operator |
| Xor.SetPresetScaled | src/xor/mod.rs:128-130 | the new value is the scaled preset, non-negative with glow at least 1, and the bare preset at factor 1 |
| Xor.Default | src/xor/mod.rs:156-160 | `Default` is `new(Strong)` |
| Xor.Run | src/xor/mod.rs:180-240 | the node draws exactly [0] iff its pipeline and both bindings are ready, and nothing otherwise |
| Xor.Vec2.Scale | src/xor/mod.rs:145 | `Vec2 * f32` scales x and y each like an ordinary field |
| Xor.ScaleDependsOnlyOnClamp | src/xor/mod.rs:137-152 | the `*` operator sees the factor only through its clamp: two factors with the same clamp give the same record |
| Xor.ScaleBelowMinIsMin | src/xor/mod.rs:137 | any factor at or below MIN_SCALE gives the same record as MIN_SCALE |
| Xor.OffsetScaledPerComponent | src/xor/mod.rs:145 | the aberration offset's x and y are each multiplied by the clamped factor |
| Xor.ScaleKeepsNonNegative | src/xor/mod.rs:141-151 | scaling keeps a non-negative record non-negative |
| Xor.NoFieldPassesThrough | src/xor/mod.rs:142-150 | every non-glow field keeps its value exactly when it is zero or the clamped factor is 1, so none passes through |
| Xor.ScaleByOneIsIdentity | src/xor/mod.rs:133-154 | factor 1 leaves a record whose glow is at least 1 unchanged |
| Xor.WithScaleOneOnPresets | src/xor/mod.rs:90-126 | `with_scale(1.0)` on MILD or STRONG returns the preset unchanged |
| Xor.SetPresetScaledIgnoresPrior | src/xor/mod.rs:128-130 | the prior value has no influence on `set_preset_scaled` |
| Xor.RunIgnoresSettings | src/xor/mod.rs:184 | which passes run does not depend on the settings |
| Xor.RunImage | src/xor/mod.rs:191-237 | an aborted node leaves the target untouched; otherwise pass 0 is applied to the input image with one swap |
| Gavlig.New | src/gavlig/mod.rs:86-98 | `new(Mild)` is MILD, which is non-negative with glow strength at least 1 |
| Gavlig.Scale | src/gavlig/mod.rs:110-131 | `*` passes the glow threshold through, floors the scaled glow strength at 1 and scales the vignette and grain fields by the clamped factor |
| Gavlig.WithScale | src/gavlig/mod.rs:100-103 | `with_scale` is the `*` operator |
| Gavlig.SetPresetScaled | src/gavlig/mod.rs:105-107 | the new value is MILD scaled, non-negative with glow strength at least 1, and MILD itself at factor 1 |
| Gavlig.Default | src/gavlig/mod.rs:133-137 | `Default` is `new(Mild)` |
| Gavlig.Run | src/gavlig/mod.rs:156-216 | the node draws exactly [0] iff its pipeline and both bindings are ready, and nothing otherwise |
| Gavlig.ScaleDependsOnlyOnClamp | src/gavlig/mod.rs:114-128 | the `*` operator sees the factor only through its clamp: two factors with the same clamp give the same record |
| Gavlig.ScaleBelowMinIsMin | src/gavlig/mod.rs:114 | any factor at or below MIN_SCALE gives the same record as MIN_SCALE |
| Gavlig.ThresholdUnscaled | src/gavlig/mod.rs:116 | the glow threshold is the same for every factor |
| Gavlig.ScaleKeepsNonNegative | src/gavlig/mod.rs:114-128 | scaling keeps a non-negative record non-negative |
| Gavlig.ScaledFieldsFollowFactor | src/gavlig/mod.rs:124-126 | vignette strength, vignette alpha and grain keep their value iff zero or the clamped factor is 1, and no factor zeroes them |
| Gavlig.MildIsFixed | src/gavlig/mod.rs:86-103 | `new(Mild)` and `Default` are MILD, and `with_scale(1.0)` on MILD returns it unchanged |
| Gavlig.SetPresetScaledIgnoresPrior | src/gavlig/mod.rs:105-107 | the prior value has no influence on `set_preset_scaled` |
| Gavlig.RunIgnoresSettings | src/gavlig/mod.rs:160 | which passes run does not depend on the settings |
| Gavlig.RunImage | src/gavlig/mod.rs:167-213 | an aborted node leaves the target untouched; otherwise pass 0 is applied to the input image with one swap |

## Left out

- `f32` arithmetic is left out: fields are exact reals, so there is no rounding, no overflow to infinity and no NaN. The NaN behaviour of `f32::max` is not modelled (a NaN factor would clamp to MIN_SCALE). An infinite factor is not modelled either: in `f32` it turns xor's zero `aberration_offset.y` into 0 × inf = NaN, where `Crt.ScaleAmount` promises that a field is zero after scaling exactly when it was zero before. Underflow breaks the same promise, and `Endesga.ScaleNeverZeroes` with it: the smallest subnormal `f32` (2^-149) times MIN_SCALE rounds to 0.
- Endesga.ScaleDampingComposes holds over reals only: in `f32`, (x·a)·b and x·(a·b) can differ by a rounding step. The same goes for `Crt.ScaleDamping`.
- Endesga.MildMaskPassThreshold places the boundary at exactly 0.1 over reals. In `f32`, 0.01 times the next float above 0.1 can round to MIN_AMOUNT, which still skips pass 1, so the boundary can move by one float.
- Xor.NoFieldPassesThrough, Gavlig.ScaledFieldsFollowFactor and `Crt.ScaleAmountFixed` ("unchanged exactly when zero or the clamped factor is 1") hold over reals only: in `f32` a product can round back to the field's own value.
- Plugin registration is left out (`build`, `finish`, `load_internal_asset!`, `add_render_graph_node`, `add_render_graph_edges`). It is host-framework wiring. All three variants sit between `EndMainPass` and `Bloom`. The order among the three variants is not modelled, because the code declares no edge between them.
- Pipeline resource creation is left out (`FromWorld`: bind-group layout, sampler, `queue_render_pipeline` descriptors, texture format). These are opaque renderer calls. The model only sees whether each cached pipeline is ready.
- The bind group and render pass built for each draw are left out, as is the `draw(0..3, 0..1)` call itself. The model records one `DrawCall` per executed pass, with its source and destination textures.
- The ping-pong swap inside the host's `post_process_write` is not part of this model. `PingPong.Draw` states only its observable effect.
- Each node fetches four resources with `world.resource::<…>()`, which panics when the resource is absent: its pipeline record, `PipelineCache`, the settings uniforms (`ComponentUniforms<…>`) and `GlobalsBuffer` (src/endesga/mod.rs:188, 190, 196, 200; src/xor/mod.rs:187, 189, 193, 197; src/gavlig/mod.rs:163, 165, 169, 173). The model treats all four as present. The crate's own plugin inserts the pipeline record, with `init_resource` in `finish` (src/endesga/mod.rs:74, src/xor/mod.rs:70, src/gavlig/mod.rs:71), and the settings uniforms, through the `UniformComponentPlugin` it adds (src/endesga/mod.rs:49, src/xor/mod.rs:45, src/gavlig/mod.rs:46). `PipelineCache` and `GlobalsBuffer` are inserted by the host engine's render plugin, which the crate relies on but does not add.
- Per-frame extraction (`ExtractComponentPlugin`, `UniformComponentPlugin`) is host library code and is left out. The settings records carry no derived per-frame fields.
- The WGSL shaders are not part of this model. Each pass's image transform is the `effect` parameter.
- The shader handle constants and the derived traits of the preset enums carry no behaviour.
- `examples/cube.rs` is scene setup and is left out.
