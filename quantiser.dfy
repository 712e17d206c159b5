/** Longitude quantiser: the ecliptic circle cut into 64 gates of 5.625
    degrees, each gate cut into 6 lines of 0.9375 degrees.  Both widths are
    exact binary fractions, so `real` arithmetic is exact here. */
module Quantiser {

  /** Width of one gate: 360 / 64 degrees. */
  const GATE_SIZE: real := 5.625

  /** Width of one line: a sixth of a gate. */
  const LINE_SIZE: real := 0.9375

  /** The (gate, line) pair recorded for one body. */
  datatype Activation = Activation(gate: int, line: int)

  /** Python's `x // d` for a positive divisor: the floor of the quotient. */
  function FloorDiv(x: real, d: real): (q: int)
    requires d > 0.0
    ensures q as real * d <= x
    ensures x < (q + 1) as real * d
  {
    var t := x / d;
    var k := t.Floor;
    assert t * d == x;
    assert k as real <= t < (k + 1) as real;
    assert (t - k as real) * d >= 0.0;
    assert (t - k as real) * d == x - k as real * d;
    assert ((k + 1) as real - t) * d > 0.0;
    assert ((k + 1) as real - t) * d == (k + 1) as real * d - x;
    assert x < (k + 1) as real * d;
    k
  }

  /** Python's `x % d` for a positive divisor: the remainder takes the sign of
      the divisor, so it is never negative. */
  function FloorMod(x: real, d: real): (m: real)
    requires d > 0.0
    ensures 0.0 <= m < d
    ensures x == FloorDiv(x, d) as real * d + m
  {
    x - FloorDiv(x, d) as real * d
  }

  /** Start of the arc of `line` within `gate`, in degrees. */
  function ArcStart(gate: int, line: int): real
  {
    (gate - 1) as real * GATE_SIZE + (line - 1) as real * LINE_SIZE
  }

  /** `longitude_to_gate_and_line`: no normalisation of the longitude; the
      line always lies in 1..6 and the arc it names holds the longitude. */
  function Quantise(longitude: real): (a: Activation)
    ensures 1 <= a.line <= 6
    ensures ArcStart(a.gate, a.line) <= longitude < ArcStart(a.gate, a.line) + LINE_SIZE
  {
    var gate := FloorDiv(longitude, GATE_SIZE) + 1;
    var line := FloorDiv(FloorMod(longitude, GATE_SIZE), LINE_SIZE) + 1;
    Activation(gate, line)
  }

  /** The two facts of Quantise's contract determine its result: a pair whose
      line is in 1..6 and whose arc holds the longitude is the quantisation. */
  lemma QuantiseUnique(longitude: real, a: Activation)
    requires 1 <= a.line <= 6
    requires ArcStart(a.gate, a.line) <= longitude < ArcStart(a.gate, a.line) + LINE_SIZE
    ensures a == Quantise(longitude)
  {
    var g := (a.gate - 1) as real * GATE_SIZE;
    assert g <= longitude < g + GATE_SIZE;
  }

  /** The gate lies in 1..64 exactly for longitudes in [0, 360). */
  lemma GateInRange(longitude: real)
    ensures 1 <= Quantise(longitude).gate <= 64 <==> 0.0 <= longitude < 360.0
  {
    var a := Quantise(longitude);
    var g := (a.gate - 1) as real * GATE_SIZE;
    assert g <= longitude < g + GATE_SIZE;
  }

  /** Adding a full turn moves the gate up by 64 and keeps the line: there is
      no wrap-around, so 360.0 and beyond fall outside gate numbering. */
  lemma FullTurn(longitude: real)
    ensures Quantise(longitude + 360.0)
         == Activation(Quantise(longitude).gate + 64, Quantise(longitude).line)
  {
    var a := Quantise(longitude);
    QuantiseUnique(longitude + 360.0, Activation(a.gate + 64, a.line));
  }

  /** Boundary examples: 0 starts gate 1, a gate boundary belongs to the next
      gate, the last line ends just below 360, and 360 itself yields gate 65. */
  lemma Boundaries()
    ensures Quantise(0.0) == Activation(1, 1)
    ensures Quantise(5.625) == Activation(2, 1)
    ensures Quantise(359.9999) == Activation(64, 6)
    ensures Quantise(360.0) == Activation(65, 1)
  {
    QuantiseUnique(0.0, Activation(1, 1));
    QuantiseUnique(5.625, Activation(2, 1));
    QuantiseUnique(359.9999, Activation(64, 6));
    QuantiseUnique(360.0, Activation(65, 1));
  }
}
