/**
 * The rejection sampler of ParameterGenerator.generate_sound_pos
 * (param_generator.py), as a function of the seeded stream: the candidate
 * each attempt forms, the acceptance test, and the bounded retry loop.
 */
module Sampler {
  import opened Wrappers
  import opened Geometry
  import opened Random
  import opened Distributions

  /**
   * The acceptance test: `np.all(source <= room - space) and np.all(source >= space)`,
   * with space the clearance step of 0.5 m.
   */
  predicate InClearance(room: Vec3, p: Vec3) {
    p.x <= room.x - Step && p.y <= room.y - Step && p.z <= room.z - Step &&
    Step <= p.x && Step <= p.y && Step <= p.z
  }

  /** The arguments of one generate_sound_pos call, with the angle ranges already in radians. */
  datatype Request = Request(room: Vec3, mic: Vec3, pool: seq<real>, azimuth: Range, elevation: Range)

  /** What one pass through the loop body draws and forms. */
  datatype Attempt = Attempt(elevation: real, azimuth: real, radius: real, candidate: Vec3)

  /**
   * Attempt number j of a run whose first draw is number `start`: it takes
   * draws start + 3j (elevation), start + 3j + 1 (azimuth) and start + 3j + 2
   * (the radius, chosen from the pool), and places the candidate at
   * `sph2cart(azimuth, elevation, radius) + micpos`.
   */
  function AttemptNo(num: Numerics, stream: Stream, req: Request, start: nat, j: nat): (a: Attempt)
    requires 0 < |req.pool|
    ensures a.radius in req.pool
    ensures a.candidate == Add(Sph2Cart(num, a.azimuth, a.elevation, a.radius), req.mic)
  {
    var at := start + 3 * j;
    var elevation := UniformValue(req.elevation.lo, req.elevation.hi, stream(at));
    var azimuth := UniformValue(req.azimuth.lo, req.azimuth.hi, stream(at + 1));
    var radius := ChoiceValue(req.pool, stream(at + 2));
    Attempt(elevation, azimuth, radius, Add(Sph2Cart(num, azimuth, elevation, radius), req.mic))
  }

  /** The angles of every attempt lie within the (radian) ranges they were drawn from. */
  lemma AttemptAnglesWithin(num: Numerics, stream: Stream, req: Request, start: nat, j: nat)
    requires 0 < |req.pool|
    requires req.azimuth.lo <= req.azimuth.hi && req.elevation.lo <= req.elevation.hi
    ensures req.elevation.lo <= AttemptNo(num, stream, req, start, j).elevation <= req.elevation.hi
    ensures req.azimuth.lo <= AttemptNo(num, stream, req, start, j).azimuth <= req.azimuth.hi
  {
    var at := start + 3 * j;
    UniformWithin(req.elevation.lo, req.elevation.hi, stream(at));
    UniformWithin(req.azimuth.lo, req.azimuth.hi, stream(at + 1));
  }

  predicate Accepted(num: Numerics, stream: Stream, req: Request, start: nat, j: nat)
    requires 0 < |req.pool|
  {
    InClearance(req.room, AttemptNo(num, stream, req, start, j).candidate)
  }

  /**
   * The retry loop with `tries` attempts left, the first taking draw `at`:
   * the first accepted candidate, or None once the attempts run out. The
   * pool is only drawn from when an attempt is made (numpy's choice raises on
   * an empty pool).
   */
  function Retry(num: Numerics, stream: Stream, req: Request, at: nat, tries: int): (p: Drawn<Option<Vec3>>)
    requires 0 < |req.pool| || tries <= 0
    ensures p.value.Some? ==> InClearance(req.room, p.value.value)
    ensures at <= p.next <= at + 3 * Iterations(tries)
    ensures p.value.None? ==> p.next == at + 3 * Iterations(tries)
    ensures tries <= 0 ==> p == Drawn(None, at)
    decreases tries
  {
    if tries <= 0 then Drawn(None, at)
    else
      var a := AttemptNo(num, stream, req, at, 0);
      if InClearance(req.room, a.candidate) then Drawn(Some(a.candidate), at + 3)
      else Retry(num, stream, req, at + 3, tries - 1)
  }

  /**
   * One pass of the retry loop, given the elevation, azimuth and radius drawn
   * from draws at, second == at + 1 and third == at + 2 and the candidate they place: the
   * candidate if it keeps its clearance, else the retry with one attempt fewer.
   */
  lemma RetryFromDraws(num: Numerics, stream: Stream, req: Request, at: nat, tries: int,
                       second: nat, third: nat, elevation: real, azimuth: real, radius: real, candidate: Vec3)
    requires 0 < |req.pool| && 0 < tries
    requires second == at + 1 && third == at + 2
    requires elevation == UniformValue(req.elevation.lo, req.elevation.hi, stream(at))
    requires azimuth == UniformValue(req.azimuth.lo, req.azimuth.hi, stream(second))
    requires radius == ChoiceValue(req.pool, stream(third))
    requires candidate == Add(Sph2Cart(num, azimuth, elevation, radius), req.mic)
    ensures Retry(num, stream, req, at, tries) ==
      if InClearance(req.room, candidate) then Drawn(Some(candidate), at + 3)
      else Retry(num, stream, req, at + 3, tries - 1)
  {
    assert AttemptNo(num, stream, req, at, 0).candidate == candidate;
  }

  /** Attempt j + 1 of a run is attempt j of the run that starts one attempt later. */
  lemma AttemptShift(num: Numerics, stream: Stream, req: Request, at: nat, next: nat, j: nat)
    requires 0 < |req.pool|
    requires next == at + 3
    ensures AttemptNo(num, stream, req, next, j) == AttemptNo(num, stream, req, at, j + 1)
    ensures Accepted(num, stream, req, next, j) == Accepted(num, stream, req, at, j + 1)
  {
    assert next + 3 * j == at + 3 * (j + 1);
  }

  /**
   * The loop returns None exactly when every one of its `tries` candidates
   * fails the clearance test.
   */
  lemma {:induction false} RetryNoneIffAllRejected(num: Numerics, stream: Stream, req: Request, at: nat, tries: int)
    requires 0 < |req.pool|
    ensures Retry(num, stream, req, at, tries).value.None? <==>
      forall j :: 0 <= j < tries ==> !Accepted(num, stream, req, at, j)
    decreases tries
  {
    if tries > 0 {
      var next := at + 3;
      RetryNoneIffAllRejected(num, stream, req, next, tries - 1);
      forall j | 0 <= j < tries - 1
        ensures Accepted(num, stream, req, next, j) == Accepted(num, stream, req, at, j + 1)
      {
        AttemptShift(num, stream, req, at, next, j);
      }
      if Retry(num, stream, req, at, tries).value.None? {
        assert !Accepted(num, stream, req, at, 0);
        forall j | 0 <= j < tries
          ensures !Accepted(num, stream, req, at, j)
        {
          if j > 0 {
            assert !Accepted(num, stream, req, next, j - 1);
          }
        }
      } else if !Accepted(num, stream, req, at, 0) {
        var j :| 0 <= j < tries - 1 && Accepted(num, stream, req, next, j);
        assert Accepted(num, stream, req, at, j + 1);
      }
    }
  }

  /**
   * If attempt k is the first accepted one within the budget, the loop returns
   * its candidate after drawing exactly k + 1 attempts.
   */
  lemma {:induction false} RetryReturnsFirstAccepted(num: Numerics, stream: Stream, req: Request, at: nat, tries: int, k: nat)
    requires 0 < |req.pool|
    requires k < tries
    requires Accepted(num, stream, req, at, k)
    requires forall j :: 0 <= j < k ==> !Accepted(num, stream, req, at, j)
    ensures Retry(num, stream, req, at, tries) ==
      Drawn(Some(AttemptNo(num, stream, req, at, k).candidate), at + 3 * (k + 1))
    decreases k
  {
    var next := at + 3;
    if k == 0 {
      assert InClearance(req.room, AttemptNo(num, stream, req, at, 0).candidate);
      assert Retry(num, stream, req, at, tries) == Drawn(Some(AttemptNo(num, stream, req, at, 0).candidate), next);
    } else {
      assert !Accepted(num, stream, req, at, 0);
      assert Retry(num, stream, req, at, tries) == Retry(num, stream, req, next, tries - 1);
      forall j | 0 <= j < k - 1
        ensures !Accepted(num, stream, req, next, j)
      {
        AttemptShift(num, stream, req, at, next, j);
      }
      var previous := k - 1;
      AttemptShift(num, stream, req, at, next, previous);
      assert previous + 1 == k;
      RetryReturnsFirstAccepted(num, stream, req, next, tries - 1, previous);
      assert next + 3 * (previous + 1) == at + 3 * (k + 1);
    }
  }

  /** The least accepted attempt, when some attempt below `bound` is accepted. */
  lemma {:induction false} FirstAcceptedExists(num: Numerics, stream: Stream, req: Request, at: nat, bound: nat, i: nat)
    requires 0 < |req.pool|
    requires i < bound && Accepted(num, stream, req, at, i)
    ensures exists k ::
              0 <= k <= i && Accepted(num, stream, req, at, k) &&
              forall j :: 0 <= j < k ==> !Accepted(num, stream, req, at, j)
    decreases i
  {
    if exists j :: 0 <= j < i && Accepted(num, stream, req, at, j) {
      var j :| 0 <= j < i && Accepted(num, stream, req, at, j);
      FirstAcceptedExists(num, stream, req, at, bound, j);
    } else {
      assert forall j :: 0 <= j < i ==> !Accepted(num, stream, req, at, j);
    }
  }

  /**
   * A returned position is the candidate of the first accepted attempt k,
   * after exactly k + 1 attempts: the loop stops at its first success.
   */
  lemma RetrySomeIsFirstAccepted(num: Numerics, stream: Stream, req: Request, at: nat, tries: int)
    requires 0 < |req.pool|
    requires Retry(num, stream, req, at, tries).value.Some?
    ensures exists k ::
              0 <= k < tries && Accepted(num, stream, req, at, k) &&
              (forall j :: 0 <= j < k ==> !Accepted(num, stream, req, at, j)) &&
              Retry(num, stream, req, at, tries) == Drawn(Some(AttemptNo(num, stream, req, at, k).candidate), at + 3 * (k + 1))
  {
    RetryNoneIffAllRejected(num, stream, req, at, tries);
    var i :| 0 <= i < tries && Accepted(num, stream, req, at, i);
    FirstAcceptedExists(num, stream, req, at, tries, i);
    var k :| 0 <= k <= i && Accepted(num, stream, req, at, k) &&
      forall j :: 0 <= j < k ==> !Accepted(num, stream, req, at, j);
    RetryReturnsFirstAccepted(num, stream, req, at, tries, k);
  }

  /**
   * A returned position lies at a distance from the microphone that is an
   * element of the pool, when cos, sin and sqrt are sound and the pool holds no
   * negative radius.
   */
  lemma PlacedAtPooledDistance(num: Numerics, stream: Stream, req: Request, at: nat, tries: int)
    requires 0 < |req.pool|
    requires TrigSound(num) && SqrtSound(num.sqrt)
    requires forall r :: r in req.pool ==> 0.0 <= r
    requires Retry(num, stream, req, at, tries).value.Some?
    ensures EuclideanDistance(num.sqrt, req.mic, Retry(num, stream, req, at, tries).value.value) in req.pool
  {
    RetrySomeIsFirstAccepted(num, stream, req, at, tries);
    var k :| 0 <= k < tries && Accepted(num, stream, req, at, k)
      && Retry(num, stream, req, at, tries) == Drawn(Some(AttemptNo(num, stream, req, at, k).candidate), at + 3 * (k + 1));
    var a := AttemptNo(num, stream, req, at, k);
    OffsetDistance(num, req.mic, a.azimuth, a.elevation, a.radius);
  }
}
