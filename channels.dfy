/** The static channel table, the channel-completeness test and the
    aggregation of channels into defined centers. */
module Centers {
  import opened Quantiser
  import opened Snapshots

  /** A channel: a pair of gate numbers. */
  type Channel = (int, int)

  /** The six centers, the keys of the channel table. */
  datatype Center = Sacral | Manifestor | G | Splenic | Emotional | Root

  /** The key under which the table and the result name a center. */
  function Name(c: Center): string
  {
    match c
    case Sacral => "Sacral"
    case Manifestor => "Manifestor"
    case G => "G"
    case Splenic => "Splenic"
    case Emotional => "Emotional"
    case Root => "Root"
  }

  /** The centers in the table's insertion order. */
  const CENTERS: seq<Center> := [Sacral, Manifestor, G, Splenic, Emotional, Root]

  /** Position of a center in CENTERS. */
  function CenterIndex(c: Center): (i: nat)
    ensures i < |CENTERS| && CENTERS[i] == c
  {
    match c
    case Sacral => 0
    case Manifestor => 1
    case G => 2
    case Splenic => 3
    case Emotional => 4
    case Root => 5
  }

  /** CHANNELS: the channels listed under each center. */
  function Channels(c: Center): seq<Channel>
  {
    match c
    case Sacral => [(3, 60), (5, 15), (9, 52), (14, 2), (27, 50), (29, 46), (34, 20), (42, 53)]
    case Manifestor => [(12, 22), (16, 48), (35, 36), (45, 21), (51, 25), (55, 39)]
    case G => [(1, 2), (10, 15), (13, 33), (25, 51)]
    case Splenic => [(48, 16), (18, 58), (28, 38), (32, 54)]
    case Emotional => [(6, 59), (7, 31), (19, 49), (30, 41)]
    case Root => [(52, 58), (53, 42), (54, 32), (58, 38)]
  }

  /** The table has exactly the six keys, each once, under six distinct names. */
  lemma CentersListEveryCenterOnce()
    ensures |CENTERS| == 6
    ensures forall c: Center :: c in CENTERS
    ensures forall i, j :: 0 <= i < j < |CENTERS| ==> CENTERS[i] != CENTERS[j]
    ensures forall c1: Center, c2: Center :: c1 != c2 ==> Name(c1) != Name(c2)
  {
    forall c: Center ensures c in CENTERS {
      var i := CenterIndex(c);
    }
  }

  /** Every endpoint of every channel of the table is a gate in 1..64. */
  lemma ChannelGatesInRange(c: Center)
    ensures forall ch :: ch in Channels(c) ==> 1 <= ch.0 <= 64 && 1 <= ch.1 <= 64
  {
  }

  /** Some body of either snapshot sits on gate `g`. */
  ghost predicate Hit(g: int, personality: Snapshot, design: Snapshot)
  {
    (exists b :: b in personality && personality[b].gate == g)
    || (exists b :: b in design && design[b].gate == g)
  }

  /** The gates of every body in both snapshots (`all_gates`). */
  function ActiveGates(personality: Snapshot, design: Snapshot): set<int>
  {
    (set a | a in personality.Values :: a.gate) + (set a | a in design.Values :: a.gate)
  }

  /** `is_channel_complete`: both ends of the channel are hit by some body in
      the personality or the design snapshot. */
  function IsChannelComplete(channel: Channel, personality: Snapshot, design: Snapshot): (r: bool)
    ensures r <==> Hit(channel.0, personality, design) && Hit(channel.1, personality, design)
  {
    var allGates := ActiveGates(personality, design);
    channel.0 in allGates && channel.1 in allGates
  }

  /** `any(...)` over a center's channels, first to last: some channel of the
      list is complete. */
  function AnyComplete(channels: seq<Channel>, personality: Snapshot, design: Snapshot): (r: bool)
    ensures r <==> exists ch :: ch in channels && IsChannelComplete(ch, personality, design)
  {
    if channels == [] then false
    else IsChannelComplete(channels[0], personality, design) || AnyComplete(channels[1..], personality, design)
  }

  /** The center map `compute_centers` is meant to build: every center of the
      table, defined exactly when one of its channels is complete. */
  function DefinedCenters(personality: Snapshot, design: Snapshot): (centers: map<Center, bool>)
    ensures forall c: Center :: c in centers
    ensures forall c: Center :: centers[c] <==>
      exists ch :: ch in Channels(c) && IsChannelComplete(ch, personality, design)
  {
    CentersListEveryCenterOnce();
    map c: Center | c in CENTERS :: AnyComplete(Channels(c), personality, design)
  }

  /** `compute_centers`: one entry per table key, visited in order. */
  method ComputeCenters(personality: Snapshot, design: Snapshot) returns (centers: map<Center, bool>)
    ensures forall c: Center :: c in centers
    ensures forall c: Center :: centers[c] <==>
      exists ch :: ch in Channels(c) && IsChannelComplete(ch, personality, design)
    ensures centers == DefinedCenters(personality, design)
  {
    centers := map[];
    for i := 0 to |CENTERS|
      invariant forall j :: 0 <= j < i ==> CENTERS[j] in centers
      invariant forall c :: c in centers ==> c in CENTERS[..i]
      invariant forall c :: c in centers ==> centers[c] == AnyComplete(Channels(c), personality, design)
    {
      var center := CENTERS[i];
      var channels := Channels(center);
      centers := centers[center := AnyComplete(channels, personality, design)];
    }
    forall c: Center ensures c in centers {
      var j := CenterIndex(c);
    }
  }

  /** Swapping a channel's two ends does not change whether it is complete. */
  lemma CompleteSymmetricInEnds(channel: Channel, personality: Snapshot, design: Snapshot)
    ensures IsChannelComplete(channel, personality, design)
         == IsChannelComplete((channel.1, channel.0), personality, design)
  {
  }

  /** Swapping the personality and design snapshots does not change it. */
  lemma CompleteSymmetricInCharts(channel: Channel, personality: Snapshot, design: Snapshot)
    ensures IsChannelComplete(channel, personality, design)
         == IsChannelComplete(channel, design, personality)
  {
  }

  /** Snapshots that agree on which body sits on which gate give the same
      answer, whatever their lines. */
  lemma CompleteIgnoresLines(channel: Channel, p1: Snapshot, d1: Snapshot, p2: Snapshot, d2: Snapshot)
    requires p1.Keys == p2.Keys && forall b :: b in p1 ==> p1[b].gate == p2[b].gate
    requires d1.Keys == d2.Keys && forall b :: b in d1 ==> d1[b].gate == d2[b].gate
    ensures IsChannelComplete(channel, p1, d1) == IsChannelComplete(channel, p2, d2)
  {
    forall g ensures Hit(g, p1, d1) <==> Hit(g, p2, d2) {
      if Hit(g, p1, d1) {
        if b :| b in p1 && p1[b].gate == g {
          assert b in p2 && p2[b].gate == g;
        } else {
          var b :| b in d1 && d1[b].gate == g;
          assert b in d2 && d2[b].gate == g;
        }
      }
      if Hit(g, p2, d2) {
        if b :| b in p2 && p2[b].gate == g {
          assert b in p1 && p1[b].gate == g;
        } else {
          var b :| b in d2 && d2[b].gate == g;
          assert b in d1 && d1[b].gate == g;
        }
      }
    }
  }

  /** A complete channel defines every center whose list holds it or its
      mirror image. */
  lemma CompleteDefines(channel: Channel, c: Center, personality: Snapshot, design: Snapshot)
    requires channel in Channels(c) || (channel.1, channel.0) in Channels(c)
    requires IsChannelComplete(channel, personality, design)
    ensures DefinedCenters(personality, design)[c]
  {
    CompleteSymmetricInEnds(channel, personality, design);
    if channel !in Channels(c) {
      assert IsChannelComplete((channel.1, channel.0), personality, design);
    }
  }

  /** Manifestor's (16, 48) is Splenic's (48, 16) reversed, and Manifestor's
      (51, 25) is G's (25, 51): a Manifestor center defined through either
      channel always comes with a defined Splenic or G center. */
  lemma ManifestorMirrors(personality: Snapshot, design: Snapshot)
    ensures IsChannelComplete((16, 48), personality, design) ==>
      DefinedCenters(personality, design)[Manifestor] && DefinedCenters(personality, design)[Splenic]
    ensures IsChannelComplete((51, 25), personality, design) ==>
      DefinedCenters(personality, design)[Manifestor] && DefinedCenters(personality, design)[G]
  {
    if IsChannelComplete((16, 48), personality, design) {
      CompleteDefines((16, 48), Manifestor, personality, design);
      CompleteDefines((16, 48), Splenic, personality, design);
    }
    if IsChannelComplete((51, 25), personality, design) {
      CompleteDefines((51, 25), Manifestor, personality, design);
      CompleteDefines((51, 25), G, personality, design);
    }
  }

  /** Sacral's (42, 53) is Root's (53, 42) reversed, and Splenic's (32, 54)
      is Root's (54, 32): either one complete defines Root as well. */
  lemma RootMirrors(personality: Snapshot, design: Snapshot)
    ensures IsChannelComplete((42, 53), personality, design) ==>
      DefinedCenters(personality, design)[Sacral] && DefinedCenters(personality, design)[Root]
    ensures IsChannelComplete((32, 54), personality, design) ==>
      DefinedCenters(personality, design)[Splenic] && DefinedCenters(personality, design)[Root]
  {
    if IsChannelComplete((42, 53), personality, design) {
      CompleteDefines((42, 53), Sacral, personality, design);
      CompleteDefines((42, 53), Root, personality, design);
    }
    if IsChannelComplete((32, 54), personality, design) {
      CompleteDefines((32, 54), Splenic, personality, design);
      CompleteDefines((32, 54), Root, personality, design);
    }
  }
}
