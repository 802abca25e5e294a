/**
 * ParameterGenerator (param_generator.py): a generator object holding its
 * configuration and a seeded random state, whose methods draw from that state
 * step by step. Each method is proved to leave the state, and return the
 * value, that the matching function of GeneratorSpec computes from the draw
 * number it started at.
 */
module Generator {
  import opened Wrappers
  import opened Geometry
  import opened Random
  import opened Distributions
  import opened Scene
  import opened Sampler
  import opened GeneratorSpec

  /** The noise loop's result once `acc` has been appended before the rest of the batch. */
  function Prepend(acc: seq<Parameter>, rest: Drawn<Option<seq<Parameter>>>): Drawn<Option<seq<Parameter>>> {
    if rest.value.None? then rest else Drawn(Some(acc + rest.value.value), rest.next)
  }

  /** The items emitted so far followed by what the remaining iterations emit. */
  function Continue(items: seq<Option<Sample>>, rest: Drawn<seq<Option<Sample>>>): Drawn<seq<Option<Sample>>> {
    Drawn(items + rest.value, rest.next)
  }

  /**
   * One pass of the noise loop, given the sound position it drew from `at`,
   * in terms of what the batch has appended so far.
   */
  lemma NoiseFromSound(s: Settings, stream: Stream, target: Parameter, pool: seq<real>, count: nat, at: nat,
                       acc: seq<Parameter>, sound: Drawn<Option<Vec3>>)
    requires 0 < count && (0 < |pool| || s.maxTryTimes <= 0)
    requires sound == SoundPos(s, stream, target.room, target.mic, pool, s.config.noiseAzimuth, s.config.noiseElevation, at)
    ensures Prepend(acc, NoisePlacements(s, stream, target, pool, count, at)) ==
      if sound.value.None? then Drawn(None, sound.next)
      else Prepend(acc + [Parameter(target.room, target.mic, sound.value.value, target.t60)],
                   NoisePlacements(s, stream, target, pool, count - 1, sound.next))
  {
    if sound.value.Some? {
      var p := Parameter(target.room, target.mic, sound.value.value, target.t60);
      var rest := NoisePlacements(s, stream, target, pool, count - 1, sound.next);
      if rest.value.Some? {
        assert acc + ([p] + rest.value.value) == (acc + [p]) + rest.value.value;
      }
    }
  }

  /** One pass of __iter__, in terms of the items emitted so far. */
  lemma SampleStep(s: Settings, stream: Stream, count: nat, at: nat, items: seq<Option<Sample>>)
    requires SqrtSound(s.numerics.sqrt) && 0 < count
    ensures var first := SampleAt(s, stream, at);
      Continue(items, SampleSequence(s, stream, count, at)) ==
        Continue(items + [first.value], SampleSequence(s, stream, count - 1, first.next))
  {
    var first := SampleAt(s, stream, at);
    var rest := SampleSequence(s, stream, count - 1, first.next);
    assert SampleSequence(s, stream, count, at) == Drawn([first.value] + rest.value, rest.next);
    ContinueCons(items, first.value, rest);
  }

  lemma ContinueCons(items: seq<Option<Sample>>, item: Option<Sample>, rest: Drawn<seq<Option<Sample>>>)
    ensures Continue(items, Drawn([item] + rest.value, rest.next)) == Continue(items + [item], rest)
  {
    assert items + ([item] + rest.value) == (items + [item]) + rest.value;
  }

  /** gen_target's room and microphone from the six draws that follow draw `at`. */
  lemma RoomAndMicDraws(c: Config, stream: Stream, at: nat, room: Vec3, mx: real, my: real, mz: real)
    requires room.x == UniformValue(c.roomX.lo, c.roomX.hi, stream(at))
    requires room.y == UniformValue(c.roomY.lo, c.roomY.hi, stream(at + 1))
    requires room.z == UniformValue(c.roomZ.lo, c.roomZ.hi, stream(at + 2))
    requires mx == UniformValue(0.0, 1.0, stream(at + 3))
    requires my == UniformValue(0.0, 1.0, stream(at + 4))
    requires mz == UniformValue(0.0, 1.0, stream(at + 5))
    ensures room == RoomAt(c, stream, at)
    ensures Vec3(mx * room.x, my * room.y, mz * room.z) == MicAt(room, stream, at + 3)
  {
  }

  class ParameterGenerator {
    const sampleNum: int
    const config: Config
    const maxTryTimes: int
    const numerics: Numerics
    /** The random state this generator draws from, seeded by the constructor. */
    const rng: RandomState

    /** The fixed part of the generator, as the specification functions take it. */
    function Setup(): Settings {
      Settings(config, maxTryTimes, numerics)
    }

    /**
     * `__init__`: `np.random.seed(seed)` selects the stream `seeded`; the
     * configuration dictionary arrives already unpacked as `config`.
     */
    constructor (sampleNum: int, seeded: Stream, config: Config, numerics: Numerics, maxTryTimes: int := 200)
      ensures this.sampleNum == sampleNum && this.config == config
      ensures this.maxTryTimes == maxTryTimes && this.numerics == numerics
      ensures fresh(rng) && rng.stream == seeded && rng.drawn == 0
    {
      this.sampleNum := sampleNum;
      this.config := config;
      this.maxTryTimes := maxTryTimes;
      this.numerics := numerics;
      rng := new RandomState(seeded);
    }

    /**
     * `generate_sound_pos`: up to max_try_times attempts of three draws each;
     * the first candidate at least `space` from every wall is returned.
     */
    method GenerateSoundPos(room: Vec3, micpos: Vec3, distanceDistribute: seq<real>,
                            azimuthRange: Range, elevationRange: Range) returns (sound: Option<Vec3>)
      requires 0 < |distanceDistribute| || maxTryTimes <= 0
      modifies rng
      ensures Drawn(sound, rng.drawn) ==
        SoundPos(Setup(), rng.stream, room, micpos, distanceDistribute, azimuthRange, elevationRange, old(rng.drawn))
    {
      var azimuthRad := Radians(azimuthRange);
      var elevationRad := Radians(elevationRange);
      ghost var req := Request(room, micpos, distanceDistribute, azimuthRad, elevationRad);
      ghost var at := rng.drawn;
      ghost var expected := Retry(numerics, rng.stream, req, at, maxTryTimes);
      assert expected == SoundPos(Setup(), rng.stream, room, micpos, distanceDistribute, azimuthRange, elevationRange, at);
      for i := 0 to Iterations(maxTryTimes)
        invariant expected == Retry(numerics, rng.stream, req, rng.drawn, maxTryTimes - i)
      {
        ghost var start := rng.drawn;
        var elevation := rng.Uniform(elevationRad.lo, elevationRad.hi);
        ghost var second := rng.drawn;
        var azimuth := rng.Uniform(azimuthRad.lo, azimuthRad.hi);
        ghost var third := rng.drawn;
        var radii := rng.Choice(distanceDistribute);
        var offset := Sph2Cart(numerics, azimuth, elevation, radii);
        var source := Add(offset, micpos);
        RetryFromDraws(numerics, rng.stream, req, start, maxTryTimes - i, second, third, elevation, azimuth, radii, source);
        if InClearance(room, source) {
          return Some(source);
        }
      }
      return None;
    }

    /**
     * `gen_target`: room, microphone and T60, then the target source; None
     * when the source cannot be placed.
     */
    method GenTarget() returns (target: Option<Parameter>)
      modifies rng
      ensures Drawn(target, rng.drawn) == Target(Setup(), rng.stream, old(rng.drawn))
    {
      PoolSizes();
      ghost var at := rng.drawn;
      var x := rng.Uniform(config.roomX.lo, config.roomX.hi);
      var y := rng.Uniform(config.roomY.lo, config.roomY.hi);
      var z := rng.Uniform(config.roomZ.lo, config.roomZ.hi);
      var room := Vec3(x, y, z);
      var mx := rng.Uniform(0.0, 1.0);
      var my := rng.Uniform(0.0, 1.0);
      var mz := rng.Uniform(0.0, 1.0);
      var mic := Vec3(mx * room.x, my * room.y, mz * room.z);
      RoomAndMicDraws(config, rng.stream, at, room, mx, my, mz);
      var t60 := rng.Choice(T60Distribute);
      var sound := GenerateSoundPos(room, mic, TargetDistanceDistribute, config.targetAzimuth, config.targetElevation);
      TargetFromDraws(Setup(), rng.stream, at, room, mic, t60, Drawn(sound, rng.drawn));
      if sound.None? {
        return None;
      }
      return Some(Parameter(room, mic, sound.value, t60));
    }

    /**
     * `gen_noise_sources_list`: builds the distance grid from the target's
     * max_distance, then appends one placed noise source per iteration; None
     * as soon as one cannot be placed. numpy raises on an empty grid, which
     * the precondition rules out whenever a draw would be made from it.
     */
    method GenNoiseSourcesList(spkRirParam: Parameter, noiseSourcesNumber: int) returns (noiseSources: Option<seq<Parameter>>)
      requires 0 < |NoiseGrid(Setup(), spkRirParam)| || noiseSourcesNumber <= 0 || maxTryTimes <= 0
      modifies rng
      ensures Drawn(noiseSources, rng.drawn) ==
        NoiseSources(Setup(), rng.stream, spkRirParam, noiseSourcesNumber, old(rng.drawn))
    {
      var maxDistance := spkRirParam.MaxDistance(numerics.sqrt);
      var grid := NoiseDistanceDistribute(maxDistance);
      ghost var s := Setup();
      ghost var total := Iterations(noiseSourcesNumber);
      ghost var expected := NoisePlacements(s, rng.stream, spkRirParam, grid, total, rng.drawn);
      assert expected == NoiseSources(s, rng.stream, spkRirParam, noiseSourcesNumber, rng.drawn);
      var list: seq<Parameter> := [];
      assert Prepend(list, expected) == expected by {
        if expected.value.Some? {
          assert list + expected.value.value == expected.value.value;
        }
      }
      ghost var left: nat := total;
      for i := 0 to Iterations(noiseSourcesNumber)
        invariant left == total - i
        invariant expected == Prepend(list, NoisePlacements(s, rng.stream, spkRirParam, grid, left, rng.drawn))
      {
        ghost var start := rng.drawn;
        var sound := GenerateSoundPos(spkRirParam.room, spkRirParam.mic, grid, config.noiseAzimuth, config.noiseElevation);
        NoiseFromSound(s, rng.stream, spkRirParam, grid, left, start, list, Drawn(sound, rng.drawn));
        if sound.None? {
          return None;
        }
        var rir := Parameter(spkRirParam.room, spkRirParam.mic, sound.value, spkRirParam.t60);
        list := list + [rir];
        left := left - 1;
      }
      assert list + [] == list;
      return Some(list);
    }

    /**
     * `__iter__`, with its sample_num yields collected in order: a target,
     * then its noise sources, or None when either cannot be placed.
     */
    method Samples() returns (items: seq<Option<Sample>>)
      requires SqrtSound(numerics.sqrt)
      modifies rng
      ensures Drawn(items, rng.drawn) == SampleSequence(Setup(), rng.stream, Iterations(sampleNum), old(rng.drawn))
    {
      ghost var total := Iterations(sampleNum);
      ghost var expected := SampleSequence(Setup(), rng.stream, total, rng.drawn);
      items := [];
      assert Continue(items, expected) == expected by {
        assert items + expected.value == expected.value;
      }
      for i := 0 to Iterations(sampleNum)
        invariant expected == Continue(items, SampleSequence(Setup(), rng.stream, total - i, rng.drawn))
      {
        SampleStep(Setup(), rng.stream, total - i, rng.drawn, items);
        var target := GenTarget();
        if target.None? {
          items := items + [None];
          continue;
        }
        NoiseGridNonEmptyAfterTarget(Setup(), target.value);
        var noiseList := GenNoiseSourcesList(target.value, config.noiseNumber);
        if noiseList.None? {
          items := items + [None];
          continue;
        }
        items := items + [Some(Sample(target.value, noiseList.value))];
      }
      assert items + [] == items;
    }
  }
}
