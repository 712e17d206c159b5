/** The ten tracked bodies and the snapshot of their quantised positions at
    one instant (`compute_planet_gates`). */
module Snapshots {
  import opened Quantiser

  datatype Body = Sun | Moon | Mercury | Venus | Mars | Jupiter | Saturn | Uranus | Neptune | Pluto

  /** The bodies in the order the builder visits them. */
  const PLANETS: seq<Body> := [Sun, Moon, Mercury, Venus, Mars, Jupiter, Saturn, Uranus, Neptune, Pluto]

  /** The ephemeris: ecliptic longitude, in degrees, of a body at a Julian day. */
  type Ephemeris = (real, Body) -> real

  /** Body to (gate, line), as the builder returns it. */
  type Snapshot = map<Body, Activation>

  /** Position of a body in PLANETS. */
  function BodyIndex(b: Body): (i: nat)
    ensures i < |PLANETS| && PLANETS[i] == b
  {
    match b
    case Sun => 0
    case Moon => 1
    case Mercury => 2
    case Venus => 3
    case Mars => 4
    case Jupiter => 5
    case Saturn => 6
    case Uranus => 7
    case Neptune => 8
    case Pluto => 9
  }

  /** PLANETS lists every body exactly once. */
  lemma PlanetsListEveryBodyOnce()
    ensures |PLANETS| == 10
    ensures forall b: Body :: b in PLANETS
    ensures forall i, j :: 0 <= i < j < |PLANETS| ==> PLANETS[i] != PLANETS[j]
  {
    forall b: Body ensures b in PLANETS {
      var i := BodyIndex(b);
    }
  }

  /** The snapshot the builder is meant to produce: every body, each at the
      quantisation of its ephemeris longitude. */
  function SnapshotAt(ephem: Ephemeris, jd: real): (s: Snapshot)
    ensures forall b: Body :: b in s && s[b] == Quantise(ephem(jd, b))
  {
    PlanetsListEveryBodyOnce();
    map b: Body | b in PLANETS :: Quantise(ephem(jd, b))
  }

  /** A list without repetitions has as many distinct elements as entries. */
  lemma {:induction false} DistinctCount(xs: seq<Body>)
    requires forall i, j :: 0 <= i < j < |xs| ==> xs[i] != xs[j]
    ensures |set x | x in xs| == |xs|
  {
    if xs != [] {
      DistinctCount(xs[1..]);
      assert (set x | x in xs) == {xs[0]} + (set x | x in xs[1..]);
      assert xs[0] !in xs[1..];
    }
  }

  /** A snapshot has exactly ten entries. */
  lemma SnapshotSize(ephem: Ephemeris, jd: real)
    ensures |SnapshotAt(ephem, jd)| == 10
  {
    var s := SnapshotAt(ephem, jd);
    PlanetsListEveryBodyOnce();
    DistinctCount(PLANETS);
    assert s.Keys == set x | x in PLANETS;
  }

  /** Every line of a snapshot is in 1..6, and every gate is in 1..64 when
      the ephemeris stays inside [0, 360). */
  lemma SnapshotRanges(ephem: Ephemeris, jd: real)
    ensures forall b: Body :: 1 <= SnapshotAt(ephem, jd)[b].line <= 6
    ensures forall b: Body :: 0.0 <= ephem(jd, b) < 360.0 ==> 1 <= SnapshotAt(ephem, jd)[b].gate <= 64
  {
    var s := SnapshotAt(ephem, jd);
    forall b: Body
      ensures 0.0 <= ephem(jd, b) < 360.0 ==> 1 <= s[b].gate <= 64
    {
      GateInRange(ephem(jd, b));
    }
  }

  /** `compute_planet_gates`: one ephemeris call and one quantisation per body
      of PLANETS, collected into a fresh map. */
  method ComputePlanetGates(ephem: Ephemeris, jd: real) returns (gates: Snapshot)
    ensures gates.Keys == set b: Body | b in PLANETS
    ensures forall b :: b in gates ==> gates[b] == Quantise(ephem(jd, b))
    ensures gates == SnapshotAt(ephem, jd)
  {
    gates := map[];
    for i := 0 to |PLANETS|
      invariant gates.Keys == set j | 0 <= j < i :: PLANETS[j]
      invariant forall b :: b in gates ==> gates[b] == Quantise(ephem(jd, b))
    {
      var planet := PLANETS[i];
      var a := Quantise(ephem(jd, planet));
      gates := gates[planet := a];
    }
    assert PLANETS[..] == PLANETS;
  }
}
