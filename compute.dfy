/** The whole chart (`compute_hd_gates`): two snapshots 88 days apart, the
    profile from the two Sun lines, the defined centers and the type. */
module HdCompute {
  import opened Quantiser
  import opened Snapshots
  import opened Centers
  import opened TypeClassifier
  import opened Decimal

  datatype Option<T> = None | Some(value: T)

  /** The result record: both snapshots, the profile, the type label and the
      center map. */
  datatype HdChart = HdChart(
    personality: Snapshot,
    design: Snapshot,
    profile: string,
    hdType: string,
    centers: map<Center, bool>)

  /** Julian day (UT, proleptic Gregorian calendar) of the birth moment built
      from year, month, day and fractional hour, with the seconds dropped;
      None where line 77 of hd/compute.py raises: the calendar fields do not
      form a date, or adding the hours leaves the range of a datetime. */
  type BirthJulianDay = (int, int, int, real) -> Option<real>

  /** Julian day of 0001-01-01 00:00, the earliest moment a datetime holds. */
  const DATETIME_MIN_JD: real := 1721425.5

  /** The design moment lies 88 calendar days before the birth moment at the
      same hour and minute, which is 88 days earlier on the Julian-day scale. */
  const DESIGN_OFFSET_DAYS: real := 88.0

  /** Julian day of the design moment for the birth Julian day `jd`. */
  function DesignDay(jd: real): real
  {
    jd - DESIGN_OFFSET_DAYS
  }

  /** Whether the design moment of the birth Julian day `jd` is a datetime.
      Stepping 88 days back from a birth before 0001-03-30 00:00 leaves the
      range and raises. That boundary falls on a whole minute, so comparing
      the birth moment with its seconds dropped gives the same answer. */
  predicate DesignInRange(jd: real)
  {
    DATETIME_MIN_JD <= DesignDay(jd)
  }

  /** The design moment is a datetime exactly for births from 0001-03-30
      00:00 (Julian day 1721513.5) on. */
  lemma DesignInRangeBoundary(jd: real)
    ensures DesignInRange(jd) <==> 1721513.5 <= jd
  {
  }

  /** The profile: the personality Sun line, a slash, the design Sun line.
      Lines in 1..6 give a three-character string. */
  function Profile(personality: Snapshot, design: Snapshot): (s: string)
    requires Sun in personality && Sun in design
    ensures 1 <= personality[Sun].line <= 6 && 1 <= design[Sun].line <= 6 ==>
      s == [Digit(personality[Sun].line), '/', Digit(design[Sun].line)]
  {
    IntToString(personality[Sun].line) + "/" + IntToString(design[Sun].line)
  }

  /** Two profiles with lines in 1..6 agree exactly when both Sun lines agree. */
  lemma ProfileDeterminesSunLines(p1: Snapshot, d1: Snapshot, p2: Snapshot, d2: Snapshot)
    requires Sun in p1 && Sun in d1 && Sun in p2 && Sun in d2
    requires 1 <= p1[Sun].line <= 6 && 1 <= d1[Sun].line <= 6
    requires 1 <= p2[Sun].line <= 6 && 1 <= d2[Sun].line <= 6
    ensures Profile(p1, d1) == Profile(p2, d2) <==> p1[Sun].line == p2[Sun].line && d1[Sun].line == d2[Sun].line
  {
    if Profile(p1, d1) == Profile(p2, d2) {
      assert Profile(p1, d1)[0] == Profile(p2, d2)[0];
      assert Profile(p1, d1)[2] == Profile(p2, d2)[2];
    }
  }

  /** The chart computed from the birth Julian day `jd`. */
  function ChartAt(ephem: Ephemeris, jd: real): HdChart
  {
    var personality := SnapshotAt(ephem, jd);
    var design := SnapshotAt(ephem, DesignDay(jd));
    var centers := DefinedCenters(personality, design);
    HdChart(personality, design, Profile(personality, design), Label(DetermineType(centers)), centers)
  }

  /** `compute_hd_gates`.  `lat` and `lon` are accepted and never read. */
  method ComputeHdGates(year: int, month: int, day: int, hour: real, lat: real, lon: real,
                        julianDay: BirthJulianDay, ephem: Ephemeris)
    returns (chart: Option<HdChart>)
    ensures chart.None? <==>
      julianDay(year, month, day, hour).None? || !DesignInRange(julianDay(year, month, day, hour).value)
    ensures chart.Some? ==>
      var jd := julianDay(year, month, day, hour).value;
      && chart.value.personality == SnapshotAt(ephem, jd)
      && chart.value.design == SnapshotAt(ephem, DesignDay(jd))
      && chart.value.profile == Profile(chart.value.personality, chart.value.design)
      && chart.value.centers == DefinedCenters(chart.value.personality, chart.value.design)
      && chart.value.hdType == Label(DetermineType(chart.value.centers))
    ensures chart.Some? ==> chart.value == ChartAt(ephem, julianDay(year, month, day, hour).value)
  {
    var birth := julianDay(year, month, day, hour);
    if birth.None? {
      return None;
    }
    var jdPersonality := birth.value;
    if !DesignInRange(jdPersonality) {
      return None;
    }
    var jdDesign := DesignDay(jdPersonality);

    var personality := ComputePlanetGates(ephem, jdPersonality);
    var design := ComputePlanetGates(ephem, jdDesign);

    var profile := Profile(personality, design);
    var centers := ComputeCenters(personality, design);
    var hdType := Label(DetermineType(centers));

    chart := Some(HdChart(personality, design, profile, hdType, centers));
  }

  /** Every chart's profile is "l1/l2" where l1 and l2 are the lines of the
      Sun's longitude at birth and at the design moment, each in 1..6. */
  lemma ChartProfile(ephem: Ephemeris, jd: real)
    ensures var p := Quantise(ephem(jd, Sun)).line;
            var d := Quantise(ephem(DesignDay(jd), Sun)).line;
            && 1 <= p <= 6 && 1 <= d <= 6
            && ChartAt(ephem, jd).profile == [Digit(p), '/', Digit(d)]
  {
    var chart := ChartAt(ephem, jd);
    assert chart.personality[Sun] == Quantise(ephem(jd, Sun));
    assert chart.design[Sun] == Quantise(ephem(DesignDay(jd), Sun));
  }

  /** A Sun on line 3 at birth and on line 5 at the design moment gives the
      profile "3/5", wherever the other bodies are. */
  lemma ProfileThreeFive(ephem: Ephemeris, jd: real)
    requires Quantise(ephem(jd, Sun)) == Activation(1, 3)
    requires Quantise(ephem(DesignDay(jd), Sun)) == Activation(1, 5)
    ensures ChartAt(ephem, jd).profile == "3/5"
  {
    ChartProfile(ephem, jd);
  }

  /** The chart's type is Reflector exactly when no channel of the table is
      complete across the two snapshots. */
  lemma ReflectorIffNoChannel(ephem: Ephemeris, jd: real)
    ensures var chart := ChartAt(ephem, jd);
            chart.hdType == "Reflector" <==>
            forall c: Center, ch :: ch in Channels(c) ==> !IsChannelComplete(ch, chart.personality, chart.design)
  {
    var chart := ChartAt(ephem, jd);
    LabelsDistinct(DetermineType(chart.centers), Reflector);
  }

  /** The Sun on gate 34 at birth and the Moon on gate 20 at the design
      moment complete the Sacral channel (34, 20); with no Manifestor channel
      complete the type is Generator. */
  lemma GeneratorScenario(ephem: Ephemeris, jd: real)
    requires Quantise(ephem(jd, Sun)).gate == 34
    requires Quantise(ephem(DesignDay(jd), Moon)).gate == 20
    requires forall ch :: ch in Channels(Center.Manifestor) ==>
      !IsChannelComplete(ch, SnapshotAt(ephem, jd), SnapshotAt(ephem, DesignDay(jd)))
    ensures ChartAt(ephem, jd).hdType == "Generator"
  {
    var chart := ChartAt(ephem, jd);
    assert chart.personality[Sun].gate == 34;
    assert chart.design[Moon].gate == 20;
    assert IsChannelComplete((34, 20), chart.personality, chart.design);
    assert (34, 20) in Channels(Sacral);
  }
}
