/**
 * What ParameterGenerator computes (param_generator.py: gen_target,
 * gen_noise_sources_list, __iter__), as functions of the seeded stream and
 * the draw number the generator has reached; the class in module Generator
 * is proved to follow them, and the lemmas here state what they guarantee.
 */
module GeneratorSpec {
  import opened Wrappers
  import opened Geometry
  import opened Random
  import opened Distributions
  import opened Scene
  import opened Sampler

  /** The caller's configuration: room, target and noise entries of the config dictionary. */
  datatype Config = Config(
    roomX: Range, roomY: Range, roomZ: Range,
    targetAzimuth: Range, targetElevation: Range,
    noiseNumber: int, noiseAzimuth: Range, noiseElevation: Range)

  /** Everything a generator fixes at construction besides its stream and sample count. */
  datatype Settings = Settings(config: Config, maxTryTimes: int, numerics: Numerics)

  /** One emitted record: `{'target_source': ..., 'noise_sources': [...]}`. */
  datatype Sample = Sample(targetSource: Parameter, noiseSources: seq<Parameter>)

  /** generate_sound_pos: the angle ranges converted to radians, then the retry loop. */
  function SoundPos(s: Settings, stream: Stream, room: Vec3, mic: Vec3, pool: seq<real>,
                    azimuthRange: Range, elevationRange: Range, at: nat): Drawn<Option<Vec3>>
    requires 0 < |pool| || s.maxTryTimes <= 0
  {
    Retry(s.numerics, stream, Request(room, mic, pool, Radians(azimuthRange), Radians(elevationRange)), at, s.maxTryTimes)
  }

  /** The room gen_target draws from `at` on: one uniform draw per axis. */
  function RoomAt(c: Config, stream: Stream, at: nat): Vec3 {
    Vec3(UniformValue(c.roomX.lo, c.roomX.hi, stream(at)),
         UniformValue(c.roomY.lo, c.roomY.hi, stream(at + 1)),
         UniformValue(c.roomZ.lo, c.roomZ.hi, stream(at + 2)))
  }

  /** The microphone gen_target draws from `at` on: `uniform(0, 1) * room[i]` per axis. */
  function MicAt(room: Vec3, stream: Stream, at: nat): Vec3 {
    Vec3(UnitFraction(room.x, stream(at)), UnitFraction(room.y, stream(at + 1)), UnitFraction(room.z, stream(at + 2)))
  }

  /** `uniform(0, 1) * w`. */
  function UnitFraction(w: real, u: Unit): real {
    UniformValue(0.0, 1.0, u) * w
  }

  /**
   * gen_target from draw `at`: room (3 draws), microphone (3 draws), T60 (1
   * draw), then the target source; None when the source cannot be placed.
   */
  function Target(s: Settings, stream: Stream, at: nat): (r: Drawn<Option<Parameter>>)
    ensures r.value.Some? ==> InClearance(r.value.value.room, r.value.value.sound)
    ensures r.value.Some? ==> r.value.value.t60 in T60Distribute
    ensures r.value.Some? ==> r.value.value.room == RoomAt(s.config, stream, at)
    ensures at + 7 <= r.next
    ensures r.value.None? ==> r.next == at + 7 + 3 * Iterations(s.maxTryTimes)
  {
    PoolSizes();
    var room := RoomAt(s.config, stream, at);
    var mic := MicAt(room, stream, at + 3);
    var t60 := ChoiceValue(T60Distribute, stream(at + 6));
    var sound := SoundPos(s, stream, room, mic, TargetDistanceDistribute,
                          s.config.targetAzimuth, s.config.targetElevation, at + 7);
    if sound.value.None? then Drawn(None, sound.next)
    else Drawn(Some(Parameter(room, mic, sound.value.value, t60)), sound.next)
  }

  /** gen_target's result, given the room, microphone, T60 and sound position it drew in order. */
  lemma TargetFromDraws(s: Settings, stream: Stream, at: nat, room: Vec3, mic: Vec3, t60: real,
                        sound: Drawn<Option<Vec3>>)
    requires 0 < |T60Distribute| && 0 < |TargetDistanceDistribute|
    requires room == RoomAt(s.config, stream, at) && mic == MicAt(room, stream, at + 3)
    requires t60 == ChoiceValue(T60Distribute, stream(at + 6))
    requires sound == SoundPos(s, stream, room, mic, TargetDistanceDistribute,
                               s.config.targetAzimuth, s.config.targetElevation, at + 7)
    ensures Target(s, stream, at) ==
      if sound.value.None? then Drawn(None, sound.next)
      else Drawn(Some(Parameter(room, mic, sound.value.value, t60)), sound.next)
  {
  }

  /** The placement request gen_target makes for the target source drawn from `at`. */
  function TargetRequest(s: Settings, stream: Stream, at: nat): Request {
    var room := RoomAt(s.config, stream, at);
    Request(room, MicAt(room, stream, at + 3), TargetDistanceDistribute,
            Radians(s.config.targetAzimuth), Radians(s.config.targetElevation))
  }

  /**
   * gen_target returns None exactly when every one of the max_try_times
   * candidate target positions, drawn from `placement` (the draw after the
   * T60) on, misses the clearance box.
   */
  lemma TargetNoneIffAllRejected(s: Settings, stream: Stream, at: nat, placement: nat)
    requires placement == at + 7
    ensures (PoolSizes();
      Target(s, stream, at).value.None? <==>
        forall j :: 0 <= j < s.maxTryTimes ==> !Accepted(s.numerics, stream, TargetRequest(s, stream, at), placement, j))
  {
    PoolSizes();
    var req := TargetRequest(s, stream, at);
    var sound := Retry(s.numerics, stream, req, placement, s.maxTryTimes);
    assert Target(s, stream, at).value.None? <==> sound.value.None?;
    RetryNoneIffAllRejected(s.numerics, stream, req, placement, s.maxTryTimes);
  }

  /** p carries the target's room, microphone and T60. */
  predicate SharesScene(p: Parameter, target: Parameter) {
    p.room == target.room && p.mic == target.mic && p.t60 == target.t60
  }

  /**
   * The noise loop with `count` sources left, from draw `at`: each source is
   * placed around the target's microphone in the target's room; one failed
   * placement makes the whole batch None.
   */
  function NoisePlacements(s: Settings, stream: Stream, target: Parameter, pool: seq<real>, count: nat, at: nat)
    : (r: Drawn<Option<seq<Parameter>>>)
    requires 0 < |pool| || count == 0 || s.maxTryTimes <= 0
    ensures r.value.Some? ==> |r.value.value| == count
    ensures at <= r.next
    decreases count
  {
    if count == 0 then Drawn(Some([]), at)
    else
      var sound := SoundPos(s, stream, target.room, target.mic, pool,
                            s.config.noiseAzimuth, s.config.noiseElevation, at);
      if sound.value.None? then Drawn(None, sound.next)
      else
        var rest := NoisePlacements(s, stream, target, pool, count - 1, sound.next);
        if rest.value.None? then Drawn(None, rest.next)
        else Drawn(Some([Parameter(target.room, target.mic, sound.value.value, target.t60)] + rest.value.value), rest.next)
  }

  /**
   * Every source of a completed batch shares the target's room, microphone
   * and T60, and keeps its clearance from the walls of that room.
   */
  lemma {:induction false} NoiseSharesScene(s: Settings, stream: Stream, target: Parameter, pool: seq<real>,
                                            count: nat, at: nat)
    requires 0 < |pool| || count == 0 || s.maxTryTimes <= 0
    requires NoisePlacements(s, stream, target, pool, count, at).value.Some?
    ensures var batch := NoisePlacements(s, stream, target, pool, count, at).value.value;
      forall i :: 0 <= i < |batch| ==> SharesScene(batch[i], target) && InClearance(target.room, batch[i].sound)
    decreases count
  {
    if count > 0 {
      var sound := SoundPos(s, stream, target.room, target.mic, pool, s.config.noiseAzimuth, s.config.noiseElevation, at);
      NoiseSharesScene(s, stream, target, pool, count - 1, sound.next);
    }
  }

  /** The noise distance grid gen_noise_sources_list builds for a target. */
  function NoiseGrid(s: Settings, target: Parameter): seq<real> {
    NoiseDistanceDistribute(target.MaxDistance(s.numerics.sqrt))
  }

  /** gen_noise_sources_list(target, n) from draw `at`. */
  function NoiseSources(s: Settings, stream: Stream, target: Parameter, n: int, at: nat): Drawn<Option<seq<Parameter>>>
    requires 0 < |NoiseGrid(s, target)| || n <= 0 || s.maxTryTimes <= 0
  {
    NoisePlacements(s, stream, target, NoiseGrid(s, target), Iterations(n), at)
  }

  /**
   * After a target has been placed, its room is at least 1 m along every axis,
   * so the room diagonal exceeds 0.5 and the noise grid is never empty.
   */
  lemma NoiseGridNonEmptyAfterTarget(s: Settings, target: Parameter)
    requires SqrtSound(s.numerics.sqrt)
    requires InClearance(target.room, target.sound)
    ensures 0 < |NoiseGrid(s, target)|
  {
    MaxDistanceCoversRoom(target, s.numerics.sqrt);
    NoiseGridEmptyIff(target.MaxDistance(s.numerics.sqrt));
  }

  /** What every emitted record satisfies. */
  predicate WellFormed(sample: Sample, noiseNumber: int) {
    var target := sample.targetSource;
    && InClearance(target.room, target.sound)
    && target.t60 in T60Distribute
    && |sample.noiseSources| == Iterations(noiseNumber)
    && forall i :: 0 <= i < |sample.noiseSources| ==>
         SharesScene(sample.noiseSources[i], target) && InClearance(target.room, sample.noiseSources[i].sound)
  }

  /** One step of __iter__ from draw `at`: a target, then its noise sources, or None. */
  function SampleAt(s: Settings, stream: Stream, at: nat): (r: Drawn<Option<Sample>>)
    requires SqrtSound(s.numerics.sqrt)
    ensures r.value.Some? ==> WellFormed(r.value.value, s.config.noiseNumber)
    ensures at <= r.next
  {
    var target := Target(s, stream, at);
    if target.value.None? then Drawn(None, target.next)
    else
      NoiseGridNonEmptyAfterTarget(s, target.value.value);
      var noise := NoiseSources(s, stream, target.value.value, s.config.noiseNumber, target.next);
      if noise.value.None? then Drawn(None, noise.next)
      else
        NoiseSharesScene(s, stream, target.value.value, NoiseGrid(s, target.value.value),
                         Iterations(s.config.noiseNumber), target.next);
        Drawn(Some(Sample(target.value.value, noise.value.value)), noise.next)
  }

  /** __iter__ from draw `at`: `count` items, each None or a well-formed record. */
  function SampleSequence(s: Settings, stream: Stream, count: nat, at: nat): (r: Drawn<seq<Option<Sample>>>)
    requires SqrtSound(s.numerics.sqrt)
    ensures |r.value| == count
    ensures forall i :: 0 <= i < |r.value| && r.value[i].Some? ==> WellFormed(r.value[i].value, s.config.noiseNumber)
    decreases count
  {
    if count == 0 then Drawn([], at)
    else
      var first := SampleAt(s, stream, at);
      var rest := SampleSequence(s, stream, count - 1, first.next);
      Drawn([first.value] + rest.value, rest.next)
  }

  /** With ordered ranges in the configuration, the drawn room lies inside them. */
  lemma RoomWithinConfig(c: Config, stream: Stream, at: nat)
    requires c.roomX.lo <= c.roomX.hi && c.roomY.lo <= c.roomY.hi && c.roomZ.lo <= c.roomZ.hi
    ensures c.roomX.lo <= RoomAt(c, stream, at).x <= c.roomX.hi
    ensures c.roomY.lo <= RoomAt(c, stream, at).y <= c.roomY.hi
    ensures c.roomZ.lo <= RoomAt(c, stream, at).z <= c.roomZ.hi
  {
    UniformWithin(c.roomX.lo, c.roomX.hi, stream(at));
    UniformWithin(c.roomY.lo, c.roomY.hi, stream(at + 1));
    UniformWithin(c.roomZ.lo, c.roomZ.hi, stream(at + 2));
  }

  lemma FractionOf(f: real, w: real)
    requires 0.0 <= f <= 1.0 && 0.0 <= w
    ensures 0.0 <= f * w <= w
  {
    assert f * w <= 1.0 * w by {
      assert 0.0 <= (1.0 - f) * w;
    }
  }

  lemma MicAxisWithin(w: real, u: Unit)
    requires 0.0 <= w
    ensures 0.0 <= UnitFraction(w, u) <= w
  {
    var f := UniformValue(0.0, 1.0, u);
    UniformWithin(0.0, 1.0, u);
    FractionOf(f, w);
    assert UnitFraction(w, u) == f * w;
  }

  /** In a room with no negative extent the microphone is drawn inside the room. */
  lemma MicWithinRoom(room: Vec3, stream: Stream, at: nat)
    requires 0.0 <= room.x && 0.0 <= room.y && 0.0 <= room.z
    ensures 0.0 <= MicAt(room, stream, at).x <= room.x
    ensures 0.0 <= MicAt(room, stream, at).y <= room.y
    ensures 0.0 <= MicAt(room, stream, at).z <= room.z
  {
    MicAxisWithin(room.x, stream(at));
    MicAxisWithin(room.y, stream(at + 1));
    MicAxisWithin(room.z, stream(at + 2));
  }

  /**
   * A placed target: its room is at least 1 m along every axis (twice the
   * wall clearance), its microphone lies inside the room, and its T60 is
   * one of 0.0 .. 0.9 s.
   */
  lemma TargetInsideRoom(s: Settings, stream: Stream, at: nat)
    requires Target(s, stream, at).value.Some?
    ensures var t := Target(s, stream, at).value.value;
      && 1.0 <= t.room.x && 1.0 <= t.room.y && 1.0 <= t.room.z
      && 0.0 <= t.mic.x <= t.room.x && 0.0 <= t.mic.y <= t.room.y && 0.0 <= t.mic.z <= t.room.z
      && 0.0 <= t.t60 <= 0.9
  {
    var t := Target(s, stream, at).value.value;
    MicWithinRoom(t.room, stream, at + 3);
    T60Between(t.t60);
  }

  /**
   * With sound cos, sin and sqrt, a placed target source is at a distance of
   * 1 to 7 m from the microphone, a value of target_distance_distribute.
   */
  lemma TargetAtPooledDistance(s: Settings, stream: Stream, at: nat)
    requires TrigSound(s.numerics) && SqrtSound(s.numerics.sqrt)
    requires Target(s, stream, at).value.Some?
    ensures Target(s, stream, at).value.value.Distance(s.numerics.sqrt) in TargetDistanceDistribute
    ensures 1.0 <= Target(s, stream, at).value.value.Distance(s.numerics.sqrt) <= 7.0
  {
    PoolSizes();
    var c := s.config;
    var room := RoomAt(c, stream, at);
    var mic := MicAt(room, stream, at + 3);
    var req := Request(room, mic, TargetDistanceDistribute, Radians(c.targetAzimuth), Radians(c.targetElevation));
    forall r | r in TargetDistanceDistribute
      ensures 0.0 <= r
    {
      TargetDistanceBetween(r);
    }
    PlacedAtPooledDistance(s.numerics, stream, req, at + 7, s.maxTryTimes);
    TargetDistanceBetween(Target(s, stream, at).value.value.Distance(s.numerics.sqrt));
  }

  /**
   * With sound cos, sin and sqrt and a pool of non-negative radii, every noise
   * source of a batch is at a pooled distance from the microphone.
   */
  lemma {:induction false} NoiseAtPooledDistances(s: Settings, stream: Stream, target: Parameter, pool: seq<real>,
                                                 count: nat, at: nat)
    requires TrigSound(s.numerics) && SqrtSound(s.numerics.sqrt)
    requires 0 < |pool| && forall r :: r in pool ==> 0.0 <= r
    requires NoisePlacements(s, stream, target, pool, count, at).value.Some?
    ensures forall i :: 0 <= i < |NoisePlacements(s, stream, target, pool, count, at).value.value| ==>
              NoisePlacements(s, stream, target, pool, count, at).value.value[i].Distance(s.numerics.sqrt) in pool
    decreases count
  {
    if count > 0 {
      var req := Request(target.room, target.mic, pool, Radians(s.config.noiseAzimuth), Radians(s.config.noiseElevation));
      var sound := SoundPos(s, stream, target.room, target.mic, pool, s.config.noiseAzimuth, s.config.noiseElevation, at);
      PlacedAtPooledDistance(s.numerics, stream, req, at, s.maxTryTimes);
      NoiseAtPooledDistances(s, stream, target, pool, count - 1, sound.next);
    }
  }

  /**
   * In every emitted record, each noise source is at a grid distance from the
   * microphone: at least 0.5 m, below 7.5 m and below the room diagonal.
   */
  lemma NoiseWithinGrid(s: Settings, stream: Stream, at: nat)
    requires TrigSound(s.numerics) && SqrtSound(s.numerics.sqrt)
    requires SampleAt(s, stream, at).value.Some?
    ensures var sample := SampleAt(s, stream, at).value.value;
      forall i :: 0 <= i < |sample.noiseSources| ==>
        var d := sample.noiseSources[i].Distance(s.numerics.sqrt);
        0.5 <= d < 7.5 && d < sample.targetSource.MaxDistance(s.numerics.sqrt)
  {
    var target := Target(s, stream, at);
    var t := target.value.value;
    NoiseGridNonEmptyAfterTarget(s, t);
    var grid := NoiseGrid(s, t);
    forall r | r in grid
      ensures 0.0 <= r
    {
      NoiseRadiusBounds(t.MaxDistance(s.numerics.sqrt), r);
    }
    NoiseAtPooledDistances(s, stream, t, grid, Iterations(s.config.noiseNumber), target.next);
    var sample := SampleAt(s, stream, at).value.value;
    forall i | 0 <= i < |sample.noiseSources|
      ensures 0.5 <= sample.noiseSources[i].Distance(s.numerics.sqrt) < 7.5
      ensures sample.noiseSources[i].Distance(s.numerics.sqrt) < t.MaxDistance(s.numerics.sqrt)
    {
      NoiseRadiusBounds(t.MaxDistance(s.numerics.sqrt), sample.noiseSources[i].Distance(s.numerics.sqrt));
    }
  }

  /**
   * When the target cannot be placed, __iter__ yields None and draws nothing
   * for noise: the step ends right after the target's last attempt.
   */
  lemma TargetFailureSkipsNoise(s: Settings, stream: Stream, at: nat)
    requires SqrtSound(s.numerics.sqrt)
    requires Target(s, stream, at).value.None?
    ensures SampleAt(s, stream, at) == Drawn(None, at + 7 + 3 * Iterations(s.maxTryTimes))
  {
  }
}
