# Room-impulse-response parameter generator, modelled in Dafny

`param_generator.py` produces acoustic scene descriptions for simulated room
impulse responses. Each description has three parts:

- a target source: a room extent, a microphone position, a source position and a reverberation time (T60);
- a batch of noise sources that share the target's room, microphone and T60;
- for every source, a position found by rejection sampling around the microphone.

This project models that generator and proves what it guarantees.

The model is laid out as follows:

- `wrappers.dfy`: `Option`, the `None` the generator passes upward, and `Iterations`, the count of `for _ in range(n)`.
- `geometry.dfy`: vectors and `sph2cart`, plus `angle_to_radian` over exact reals.
  - numpy's `cos`, `sin` and `sqrt` are handed in as a `Numerics` value.
  - The facts the proofs need about them are explicit preconditions: `TrigSound` (cos² + sin² = 1) and `SqrtSound` (a non-negative root that squares back).
- `scene.dfy`: the `Parameter` record with `max_distance` and `distance`.
- `random.dfy`: the random draws the generator makes, made explicit.
  - A seeded generator is a stream of unit draws in [0, 1).
  - `RandomState` is the mutable state holding that stream and the number of draws made so far.
  - `uniform(lo, hi)` is `lo + (hi - lo) * u`.
  - `choice(pool)` picks index `floor(u * n)`.
- `distributions.dfy`: the class constants.
  - the clearance step;
  - the two weighted pools, written as runs of equal values;
  - their documented frequency tables;
  - the noise distance range;
  - the `np.arange` grid that `gen_noise_sources_list` builds.
- `sampler.dfy`: the rejection loop of `generate_sound_pos` as a function of the stream.
  - Attempt j takes the three draws after the first `3j`: elevation, azimuth, then radius.
  - The first candidate that keeps 0.5 m from every wall is returned.
  - After `max_try_times` rejections it returns None.
- `generator_spec.dfy`: what `gen_target`, `gen_noise_sources_list` and `__iter__` compute, as functions of the stream and the draw number they start at. Also the lemmas about them.
- `generator.dfy`: the class `ParameterGenerator`.
  - Its methods draw from the generator's own `RandomState` step by step, with the source's loops and early returns.
  - Each method is proved to return exactly the value, and leave the generator at exactly the draw number, that its specification function gives.

`Parameter.MaxDistance` models `max_distance` as `param_generator.py:29`
computes it: the norm of `room - zeros_like(room)`, which is the room diagonal.

## Model

| member | source | states |
|---|---|---|
| Geometry.Radians | param_generator.py:279-293 | converting both ends of a degree range to radians keeps their order and equality in both directions; -180° and 180° map to -pi and pi at either end |
| Geometry.Sph2CartLength | param_generator.py:273-277 | the sph2cart offset at radius r has squared length r² when cos and sin are sound |
| Geometry.OffsetDistance | param_generator.py:306-312 | a source placed at `micpos + sph2cart(az, el, r)`, with r ≥ 0, lies at Euclidean distance exactly r from the microphone |
| Scene.MaxDistanceCoversRoom | param_generator.py:26-29 | `max_distance` (the room diagonal) bounds the room extent along every axis in absolute value |
| Scene.DistanceIsRadius | param_generator.py:31-34 | `distance` of a source placed by sph2cart around the microphone is the radius it was drawn with |
| Random.UniformWithin | param_generator.py:170-193 | a uniform draw lies between its two bounds, in either order, and strictly below hi when lo < hi |
| Random.ChoiceValue | param_generator.py:196 | `choice(pool)` on a non-empty pool yields an element of the pool |
| Random.RandomState.Uniform | param_generator.py:298-303 | `np.random.uniform` yields the scaled value of the next draw and advances the state by exactly one draw |
| Random.RandomState.Choice | param_generator.py:306 | `np.random.choice` yields the pool element the next draw selects and advances the state by exactly one draw |
| Distributions.TargetDistanceMatchesFrequencies | param_generator.py:53-72 | every value occurs in `target_distance_distribute` exactly as often as the frequency table beside it says, and no unlisted value occurs |
| Distributions.T60MatchesFrequencies | param_generator.py:77-103 | every value occurs in `t60_distribute` exactly as often as its frequency table says, and no unlisted value occurs |
| Distributions.PoolSizes | param_generator.py:53-103 | both pools hold 98 entries |
| Distributions.TargetDistanceBetween | param_generator.py:64-72 | every target distance lies between 1 and 7 m |
| Distributions.T60Between | param_generator.py:92-103 | every T60 lies between 0.0 and 0.9 s |
| Distributions.ArangeLength | param_generator.py:219-222 | `np.arange` yields no values exactly when stop ≤ start |
| Distributions.ArangeWithin | param_generator.py:219-222 | value k of `np.arange(start, stop, step)` is `start + k·step` and lies in [start, stop) |
| Distributions.ArangeComplete | param_generator.py:219-222 | every `start + k·step` below stop is value k of the grid |
| Distributions.NoiseStop | param_generator.py:214-217 | the grid's stop is max_distance capped at 7.5, never above either |
| Distributions.NoiseGridBounds | param_generator.py:214-222 | each noise grid value is `0.5 + 0.5k`, at least 0.5, below 7.5 and below max_distance |
| Distributions.NoiseGridComplete | param_generator.py:214-222 | each `0.5 + 0.5k` below both max_distance and 7.5 is in the noise grid |
| Distributions.NoiseGridEmptyIff | param_generator.py:214-222 | the noise grid is empty exactly when max_distance ≤ 0.5 |
| Distributions.NoiseRadiusBounds | param_generator.py:214-222 | any radius the noise grid offers is in [0.5, 7.5) and below max_distance |
| Sampler.AttemptNo | param_generator.py:296-312 | each attempt's radius is drawn from the supplied pool and its candidate is `sph2cart(azimuth, elevation, radius) + micpos` |
| Sampler.AttemptAnglesWithin | param_generator.py:297-303 | each attempt's elevation and azimuth lie in their radian ranges |
| Sampler.Retry | param_generator.py:296-320 | a returned position satisfies `space <= source <= room - space` on every axis; at most max_try_times attempts of three draws are made; None only after all of them; no draw at all when max_try_times ≤ 0 |
| Sampler.RetryNoneIffAllRejected | param_generator.py:296-320 | the loop returns None exactly when every one of its max_try_times candidates fails the clearance test |
| Sampler.RetryReturnsFirstAccepted | param_generator.py:314-318 | when attempt k is the first accepted one within the budget, the loop returns its candidate after exactly k + 1 attempts |
| Sampler.RetrySomeIsFirstAccepted | param_generator.py:296-320 | a returned position is the candidate of the first accepted attempt, and the loop stops right after it |
| Sampler.PlacedAtPooledDistance | param_generator.py:305-312 | a returned position lies at a distance from the microphone that is an element of the pool |
| GeneratorSpec.Target | param_generator.py:162-209 | a placed target keeps its wall clearance, its T60 comes from `t60_distribute`, and its room is the one drawn first; a failed target has drawn room, mic, T60 and all max_try_times attempts |
| GeneratorSpec.TargetNoneIffAllRejected | param_generator.py:199-209 | `gen_target` returns None exactly when every candidate target position is rejected |
| GeneratorSpec.RoomWithinConfig | param_generator.py:170-185 | each room dimension lies within its configured range |
| GeneratorSpec.MicWithinRoom | param_generator.py:187-193 | the microphone drawn as `u_i * room_i` lies in [0, room_i] on every axis |
| GeneratorSpec.TargetInsideRoom | param_generator.py:162-209 | a placed target's room is at least 1 m along every axis, its microphone is inside the room and its T60 is in [0.0, 0.9] |
| GeneratorSpec.TargetAtPooledDistance | param_generator.py:198-204 | a placed target's `distance` is a value of `target_distance_distribute`, hence 1 to 7 m |
| GeneratorSpec.NoisePlacements | param_generator.py:224-245 | a completed noise batch has exactly the requested number of sources |
| GeneratorSpec.NoiseSharesScene | param_generator.py:237-243 | every noise source of a completed batch has the target's room, microphone and T60, and keeps its wall clearance |
| GeneratorSpec.NoiseGridNonEmptyAfterTarget | param_generator.py:214-222 | after a target is placed, its noise grid is never empty, so `choice` cannot fail on it |
| GeneratorSpec.NoiseAtPooledDistances | param_generator.py:228-233 | every noise source's `distance` is a value of the grid it was drawn from |
| GeneratorSpec.NoiseWithinGrid | param_generator.py:211-245 | in every emitted record each noise source lies 0.5 m to under 7.5 m from the microphone and under the room diagonal |
| GeneratorSpec.SampleAt | param_generator.py:141-160 | an emitted record has a placed target, a T60 from the pool, exactly `noise_sources_number` noise sources and the target's scene in each of them |
| GeneratorSpec.TargetFailureSkipsNoise | param_generator.py:144-147 | when the target fails, the step yields None and draws nothing for noise sources |
| GeneratorSpec.SampleSequence | param_generator.py:141-160 | `__iter__` yields exactly `sample_num` items, each None or a well-formed record |
| Generator.ParameterGenerator.constructor | param_generator.py:105-139 | the generator keeps the sample count, configuration and retry budget (200 by default) and starts a fresh seeded state at draw 0 |
| Generator.ParameterGenerator.GenerateSoundPos | param_generator.py:247-320 | the retry loop returns the value `Sampler.Retry` gives and leaves the generator exactly after the draws it made |
| Generator.ParameterGenerator.GenTarget | param_generator.py:162-209 | `gen_target` returns the value `GeneratorSpec.Target` gives and advances the state by exactly the draws it made |
| Generator.ParameterGenerator.GenNoiseSourcesList | param_generator.py:211-245 | the appending loop returns the value `GeneratorSpec.NoiseSources` gives, stopping at the first failed placement |
| Generator.ParameterGenerator.Samples | param_generator.py:141-160 | the loop yields, in order, the items `GeneratorSpec.SampleSequence` gives for `sample_num` iterations |

## Left out

- Seeding: `np.random.seed` and numpy's generator algorithm are not modelled. The seeded stream of unit draws is a constructor parameter, so seed-level determinism is out of scope, and so are statistical claims about the distributions.
- Random.ChoiceValue: `np.random.choice` is modelled as index `floor(u * n)` of one unit draw. numpy's own index computation is not modelled; only the chosen element's membership in the pool and the draw it consumes are relied on.
- Floating point: all arithmetic is over exact reals. `np.arange`'s length is `ceil((stop - start) / step)` in exact arithmetic. `np.cos`, `np.sin` and `np.sqrt` are uninterpreted and constrained only by the `TrigSound` and `SqrtSound` preconditions. `SqrtSound` is also a precondition of `GeneratorSpec.SampleAt`, `GeneratorSpec.SampleSequence` and `Generator.ParameterGenerator.Samples`, so `__iter__` is modelled only for an exact sqrt. That is what keeps every noise grid non-empty.
- `radian_to_angle` is never called, so it is not modelled.
- `Parameter.__str__` is diagnostic formatting.
- `param_generator_test.py` only prints; it holds no logic.
- Laziness: `__iter__` is a Python generator. `Generator.ParameterGenerator.Samples` collects its `sample_num` yields into a sequence in the same order. It assumes no other code draws between two yields.
- Shared random state: numpy's random state is process-wide. `np.random.seed` (param_generator.py:110) reseeds it for every generator, and any `np.random` call elsewhere shifts all later draws. In the model each `ParameterGenerator` owns its own `RandomState`. Reseeding by a second generator and draws made outside the generator are not modelled.
- The configuration dictionary arrives already unpacked as a `Config` value. Missing keys are not modelled.
- The default angle arguments of `generate_sound_pos` are not modelled. Every caller in the source passes explicit ranges.
- Empty pools: numpy raises when `choice` draws from an empty pool. The model has a precondition instead, imposed only where a draw would be made. `GeneratorSpec.NoiseGridNonEmptyAfterTarget` shows that `__iter__` always meets it.
- Numeric types: room, microphone and source positions are three real coordinates rather than numpy arrays.
