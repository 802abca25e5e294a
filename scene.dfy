/**
 * The scene parameter record (param_generator.py, class Parameter): a room
 * extent, a microphone position, a source position and a reverberation time,
 * with its two derived norms.
 */
module Scene {
  import opened Geometry

  /** `Parameter(room, mic, sound, t60)`; the source never mutates one after construction. */
  datatype Parameter = Parameter(room: Vec3, mic: Vec3, sound: Vec3, t60: real) {

    /**
     * `max_distance`: the norm of `room - zeros_like(room)`, that is the
     * length of the room's diagonal from the origin corner.
     */
    function MaxDistance(sqrt: real -> real): real {
      EuclideanDistance(sqrt, room, Origin)
    }

    /** `distance`: the norm of `mic - sound`. */
    function Distance(sqrt: real -> real): real {
      EuclideanDistance(sqrt, mic, sound)
    }
  }

  /**
   * max_distance is the room diagonal: with a sound sqrt it is at least the
   * size of the room along every axis.
   */
  lemma MaxDistanceCoversRoom(p: Parameter, sqrt: real -> real)
    requires SqrtSound(sqrt)
    ensures -p.MaxDistance(sqrt) <= p.room.x <= p.MaxDistance(sqrt)
    ensures -p.MaxDistance(sqrt) <= p.room.y <= p.MaxDistance(sqrt)
    ensures -p.MaxDistance(sqrt) <= p.room.z <= p.MaxDistance(sqrt)
  {
    var d := Sub(p.room, Origin);
    assert d == p.room;
    SumSquaresBounds(d);
    AbsBelowSqrt(sqrt, SumSquares(d), d.x);
    AbsBelowSqrt(sqrt, SumSquares(d), d.y);
    AbsBelowSqrt(sqrt, SumSquares(d), d.z);
  }

  lemma AbsBelowSqrt(sqrt: real -> real, s: real, a: real)
    requires SqrtSound(sqrt)
    requires a * a <= s
    ensures -sqrt(s) <= a <= sqrt(s)
  {
    if a < 0.0 {
      assert (-a) * (-a) == a * a;
      SqrtDominates(sqrt, s, -a);
    } else {
      SqrtDominates(sqrt, s, a);
    }
  }

  /**
   * The distance of a source placed at `mic + sph2cart(azimuth, elevation, r)`
   * is the radius r it was drawn with.
   */
  lemma DistanceIsRadius(p: Parameter, num: Numerics, azimuth: real, elevation: real, r: real)
    requires TrigSound(num) && SqrtSound(num.sqrt)
    requires 0.0 <= r
    requires p.sound == Add(Sph2Cart(num, azimuth, elevation, r), p.mic)
    ensures p.Distance(num.sqrt) == r
  {
    OffsetDistance(num, p.mic, azimuth, elevation, r);
  }
}
