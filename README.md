# Human Design chart classification in Dafny

This project models the chart computation of `hd/compute.py`. From a birth
date and time it takes two snapshots of ten celestial bodies. The
personality snapshot is at the birth moment. The design snapshot is 88
days earlier. Each body's ecliptic longitude is quantised into one of 64
gates of 5.625 degrees and one of 6 lines of 0.9375 degrees. A channel (a
pair of gates) is complete when both of its gates are activated by some
body in either snapshot. A center is defined when one of its channels is
complete. The type (Reflector, Manifestor, Manifesting Generator,
Generator, Projector) follows from the Sacral and Manifestor centers and
from whether any center is defined. The profile is the personality Sun
line, a slash, and the design Sun line.

Files, one module each:

- `quantiser.dfy` (`Quantiser`): `GATE_SIZE`, `LINE_SIZE`, Python floor
  division and modulo on reals, `longitude_to_gate_and_line`.
- `snapshot.dfy` (`Snapshots`): the ten bodies, `PLANETS`, and
  `compute_planet_gates` as a loop that fills a map.
- `channels.dfy` (`Centers`): the `CHANNELS` table, `is_channel_complete`,
  and `compute_centers` as a loop that fills a map.
- `classifier.dfy` (`TypeClassifier`): `determine_type`.
- `decimal.dfy` (`Decimal`): Python's `str` of an integer, used by the
  profile f-string.
- `compute.dfy` (`HdCompute`): the profile, `compute_hd_gates`, and
  end-to-end properties of the chart.

Two facts about the code that the model keeps:

- `longitude_to_gate_and_line` does not normalise the longitude.
  `Quantise` is total over the reals. `GateInRange` shows that the gate
  lies in 1..64 exactly for longitudes in [0, 360). `FullTurn` shows that
  `lon + 360` lands 64 gates higher with the same line, and `Boundaries`
  shows that 360.0 gives gate 65.
- The last `else` of `determine_type` cannot be reached. The model keeps
  it and proves it dead with `assert false`.

## Model

| member | source | states |
|---|---|---|
| `Quantiser.FloorDiv` | hd/compute.py:28-29 | Python `//` by a positive divisor: `q*d <= x < (q+1)*d` |
| `Quantiser.FloorMod` | hd/compute.py:29 | Python `%` by a positive divisor: the remainder lies in `[0, d)` and `x == (x // d)*d + x % d` |
| `Quantiser.Quantise` | hd/compute.py:27-30 | the line is always in 1..6, and the arc starting at `(gate-1)*5.625 + (line-1)*0.9375` with width 0.9375 contains the longitude |
| `Quantiser.QuantiseUnique` | hd/compute.py:5-6 | the two facts of Quantise's contract fix its result: any pair with line in 1..6 whose arc holds the longitude is the quantisation |
| `Quantiser.GateInRange` | hd/compute.py:28 | the gate is in 1..64 if and only if `0 <= lon < 360` (there is no normalisation) |
| `Quantiser.FullTurn` | hd/compute.py:28-29 | `lon + 360` has the same line as `lon` and a gate 64 higher |
| `Quantiser.Boundaries` | hd/compute.py:5-6 | 0 maps to (1,1); 5.625 maps to (2,1), so a boundary belongs to the next gate; 359.9999 maps to (64,6); 360 maps to (65,1) |
| `Snapshots.PlanetsListEveryBodyOnce` | hd/compute.py:8-11 | `PLANETS` has ten entries, names every body and repeats none |
| `Snapshots.SnapshotAt` | hd/compute.py:33-40 | the intended snapshot has an entry for every body, equal to the quantisation of that body's ephemeris longitude |
| `Snapshots.SnapshotSize` | hd/compute.py:35-39 | a snapshot has exactly ten entries |
| `Snapshots.SnapshotRanges` | hd/compute.py:37-39 | every line of a snapshot is in 1..6; every gate is in 1..64 when the ephemeris longitude is in [0, 360) |
| `Snapshots.ComputePlanetGates` | hd/compute.py:33-40 | the loop's map has exactly the bodies of `PLANETS` as keys, each entry is the quantisation of that body's longitude, and the map equals `SnapshotAt` |
| `Centers.CentersListEveryCenterOnce` | hd/compute.py:14-24 | the table has exactly the six keys Sacral, Manifestor, G, Splenic, Emotional and Root, each once, with distinct names |
| `Centers.ChannelGatesInRange` | hd/compute.py:14-24 | every endpoint of every channel in the table is a gate in 1..64 |
| `Centers.IsChannelComplete` | hd/compute.py:43-47 | true if and only if each of the two channel gates is the gate of some body in the personality or the design snapshot |
| `Centers.AnyComplete` | hd/compute.py:54 | the short-circuit `any` over a channel list is true if and only if some channel in the list is complete |
| `Centers.DefinedCenters` | hd/compute.py:50-55 | the intended center map has every center as a key, false ones included, and a center maps to true if and only if one of its channels is complete |
| `Centers.ComputeCenters` | hd/compute.py:50-55 | the loop's map has every center as a key, and a center maps to true if and only if one of its channels is complete; the map equals `DefinedCenters` |
| `Centers.CompleteSymmetricInEnds` | hd/compute.py:47 | swapping a channel's two gates gives the same answer |
| `Centers.CompleteSymmetricInCharts` | hd/compute.py:45-47 | swapping the personality and design snapshots gives the same answer |
| `Centers.CompleteIgnoresLines` | hd/compute.py:45-46 | snapshots with the same bodies on the same gates give the same answer, whatever their lines |
| `Centers.CompleteDefines` | hd/compute.py:47-54 | a complete channel defines every center that lists it or its reverse |
| `Centers.ManifestorMirrors` | hd/compute.py:18-21 | (16,48) complete defines both Manifestor and Splenic; (51,25) complete defines both Manifestor and G |
| `Centers.RootMirrors` | hd/compute.py:16-23 | (42,53) complete defines both Sacral and Root; (32,54) complete defines both Splenic and Root |
| `TypeClassifier.DetermineType` | hd/compute.py:58-73 | Reflector if and only if no center value is true; otherwise (Sacral, Manifestor) decides: (F,T) is Manifestor, (T,T) is Manifesting Generator, (T,F) is Generator, (F,F) is Projector; missing keys read as false; the final fallback is unreachable |
| `TypeClassifier.LabelsDistinct` | hd/compute.py:63-73 | the five type labels are pairwise different strings |
| `Decimal.NatToString` | hd/compute.py:96 | the decimal text of a natural number is non-empty, all digits, has no leading zero, and is one digit below ten |
| `Decimal.NatToStringRoundTrip` | hd/compute.py:96 | reading the decimal text back gives the number |
| `HdCompute.Profile` | hd/compute.py:93-96 | with both Sun lines in 1..6 the profile is the personality line digit, '/', and the design line digit |
| `HdCompute.ProfileDeterminesSunLines` | hd/compute.py:94-96 | two profiles with lines in 1..6 are equal if and only if both Sun lines agree |
| `HdCompute.DesignInRangeBoundary` | hd/compute.py:83-87 | stepping 88 days back stays within the datetime range exactly for births from 0001-03-30 00:00 on |
| `HdCompute.ComputeHdGates` | hd/compute.py:76-110 | fails exactly when building the birth moment raises (line 77) or stepping 88 days back from it leaves the datetime range (lines 83-87); otherwise personality and design are the snapshots at the birth day and 88 days earlier, the profile is built from those two snapshots, the centers are computed from them, and the type is `determine_type` of the returned centers; latitude and longitude are not used |
| `HdCompute.ChartProfile` | hd/compute.py:90-96 | every chart's profile is "p/d", where p and d are the lines (each in 1..6) of the Sun at birth and at the design moment |
| `HdCompute.ProfileThreeFive` | hd/compute.py:94-96 | a Sun on (1,3) at birth and on (1,5) at the design moment gives "3/5", wherever the other bodies are |
| `HdCompute.ReflectorIffNoChannel` | hd/compute.py:99-102 | the chart's type is "Reflector" if and only if no channel in the table is complete |
| `HdCompute.GeneratorScenario` | hd/compute.py:99-102 | Sun on gate 34 at birth and Moon on gate 20 at the design moment, with no Manifestor channel complete, give type "Generator" |

## Left out

- `main.py`: FastAPI routing, reading the HTML template and Nominatim geocoding are I/O around one call.
- `swe.calc_ut` is the `Ephemeris` parameter `(Julian day, body) -> longitude`. Its failures are not modelled: the model treats it as total.
- `datetime(year, month, day) + timedelta(hours=hour)` and `swe.julday` together are the `BirthJulianDay` parameter. It returns None where line 77 raises: a bad date, or an hour that moves the moment outside the datetime range. Its dropping of seconds is inside that parameter.
- The design moment is the birth Julian day minus 88 (`DesignDay`). The source subtracts 88 calendar days and keeps the hour and minute. The OverflowError of that subtraction is modelled as a range test against the Julian day of 0001-01-01 00:00 (`DesignInRange`). The rest of the datetime arithmetic is not modelled.
- Floating point: longitudes are reals. IEEE rounding of `/`, `//` and `%` is not modelled. Both widths are exact binary fractions.
- Center keys are the `Center` datatype, not strings. `Name` gives each key's string. A center map with keys that are not centers cannot be written, so `determine_type` on such a dict is not modelled. Its only caller passes the output of `compute_centers`.
- The `{"gate": .., "line": ..}` dicts are the `Activation` record, and the result dict is the `HdChart` record.
- HdCompute.Profile: the contract spells out the profile text only for Sun lines in 1..6, the only lines `Quantise` produces (`ChartProfile`). For other integers the text is Python's `str` (`IntToString`).
