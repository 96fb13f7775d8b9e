/**
 * The air-quality tiers: a fixed table of inclusive ranges, each with a level, a
 * description and a colour class, looked up the way `Array.prototype.find` does
 * (first tier whose range holds the value), with an "Unknown" fallback.
 */
module Aqi {
  import opened Wrappers

  datatype Status = Status(level: string, description: string)

  datatype Tier = Tier(low: int, high: int, status: Status)

  predicate InTier(t: Tier, v: int) { t.low <= v <= t.high }

  /** The tier table, in ascending order of range. */
  const Tiers: seq<Tier> := [
    Tier(0, 50, Status("Good", "Air quality is satisfactory")),
    Tier(51, 100, Status("Moderate", "Acceptable quality")),
    Tier(101, 150, Status("Unhealthy for Sensitive Groups", "Mild health effects")),
    Tier(151, 200, Status("Unhealthy", "Health effects possible")),
    Tier(201, 300, Status("Very Unhealthy", "Health alert")),
    Tier(301, 500, Status("Hazardous", "Emergency conditions"))
  ]

  /** What is shown when no tier holds the value. */
  const Unknown := Status("Unknown", "No data available")

  /** The colour class of each level; "Unknown" has none. */
  const LevelColours: map<string, string> := map[
    "Good" := "text-green-500",
    "Moderate" := "text-yellow-500",
    "Unhealthy for Sensitive Groups" := "text-orange-500",
    "Unhealthy" := "text-red-500",
    "Very Unhealthy" := "text-purple-500",
    "Hazardous" := "text-red-800"
  ]

  /** Every colour class the display may carry; all are removed before one is added. */
  const ColourClasses: set<string> := {
    "text-green-500", "text-yellow-500", "text-orange-500",
    "text-red-500", "text-purple-500", "text-red-800"
  }

  /** The tiers are non-empty ranges, each starting right after the one before. */
  predicate Contiguous(ts: seq<Tier>) {
    (forall k :: 0 <= k < |ts| ==> ts[k].low <= ts[k].high) &&
    (forall k :: 0 < k < |ts| ==> ts[k].low == ts[k - 1].high + 1)
  }

  /** The index of the first tier of `ts` whose range holds `v` (`find`). */
  function FindTier(ts: seq<Tier>, v: int): (r: Option<nat>)
    ensures r.Some? ==> r.value < |ts| && InTier(ts[r.value], v) &&
                        forall j :: 0 <= j < r.value ==> !InTier(ts[j], v)
    ensures r.None? <==> forall j :: 0 <= j < |ts| ==> !InTier(ts[j], v)
  {
    if ts == [] then None
    else if InTier(ts[0], v) then Some(0)
    else match FindTier(ts[1..], v)
      case None => None
      case Some(k) => Some(k + 1)
  }

  /**
   * In a contiguous table at most one tier holds a value, and some tier holds it
   * exactly when it lies between the first tier's low and the last tier's high.
   */
  lemma {:induction false} ContiguousCover(ts: seq<Tier>, v: int)
    requires Contiguous(ts) && ts != []
    ensures (exists k :: 0 <= k < |ts| && InTier(ts[k], v)) <==> ts[0].low <= v <= ts[|ts| - 1].high
    ensures forall i, j :: 0 <= i < |ts| && 0 <= j < |ts| && InTier(ts[i], v) && InTier(ts[j], v) ==> i == j
  {
    if |ts| > 1 {
      var rest := ts[1..];
      assert Contiguous(rest) by {
        forall k | 0 < k < |rest| ensures rest[k].low == rest[k - 1].high + 1 {
          assert rest[k] == ts[k + 1] && rest[k - 1] == ts[k];
        }
      }
      ContiguousCover(rest, v);
      AscendingLows(ts);
      if ts[0].low <= v <= ts[|ts| - 1].high && !InTier(ts[0], v) {
        assert rest[|rest| - 1] == ts[|ts| - 1];
        var k :| 0 <= k < |rest| && InTier(rest[k], v);
        assert InTier(ts[k + 1], v);
      }
      if exists k :: 0 <= k < |ts| && InTier(ts[k], v) {
        var k :| 0 <= k < |ts| && InTier(ts[k], v);
        assert ts[0].low <= ts[k].low && ts[k].high <= ts[|ts| - 1].high;
      }
    }
  }

  /** In a contiguous table, a later tier lies wholly above an earlier one. */
  lemma {:induction false} AscendingLows(ts: seq<Tier>)
    requires Contiguous(ts)
    ensures forall i, j :: 0 <= i < j < |ts| ==> ts[i].high < ts[j].low
  {
    forall i, j | 0 <= i < j < |ts| ensures ts[i].high < ts[j].low {
      var k := i + 1;
      while k < j
        invariant i < k <= j
        invariant ts[i].high < ts[k].low
      {
        k := k + 1;
      }
    }
  }

  /** The table is contiguous and covers 0 to 500. */
  lemma TiersCover()
    ensures Contiguous(Tiers) && Tiers[0].low == 0 && Tiers[|Tiers| - 1].high == 500
  {
  }

  /** The status shown for `v`: its tier's, or Unknown. */
  function StatusOf(v: int): (s: Status)
    ensures (0 <= v <= 500) <==> s != Unknown
    ensures s != Unknown ==> exists k :: 0 <= k < |Tiers| && InTier(Tiers[k], v) && s == Tiers[k].status
  {
    TiersCover();
    ContiguousCover(Tiers, v);
    match FindTier(Tiers, v)
    case Some(k) => Tiers[k].status
    case None => Unknown
  }

  /** The status line: `"{level} - {description}"`. */
  function StatusText(s: Status): string {
    s.level + " - " + s.description
  }

  /** The colour class of a status, if its level has one. */
  function ColourOf(s: Status): (c: Option<string>)
    ensures c.Some? ==> c.value in ColourClasses
    ensures c.None? <==> s.level !in LevelColours
  {
    if s.level in LevelColours then Some(LevelColours[s.level]) else None
  }

  /** Every value from 0 to 500 gets exactly one colour class; every other value gets none. */
  lemma ColourExactlyInRange(v: int)
    ensures ColourOf(StatusOf(v)).Some? <==> 0 <= v <= 500
  {
    var s := StatusOf(v);
    if s != Unknown {
      var k :| 0 <= k < |Tiers| && InTier(Tiers[k], v) && s == Tiers[k].status;
      assert s.level in LevelColours;
    }
  }

  /** A draw in [0, 300) lands in one of the first five tiers, never "Hazardous" nor "Unknown". */
  lemma DrawLandsInFirstFiveTiers(v: int)
    requires 0 <= v < 300
    ensures FindTier(Tiers, v).Some? && FindTier(Tiers, v).value < 5
    ensures StatusOf(v) != Unknown && StatusOf(v).level != "Hazardous"
  {
    assert InTier(Tiers[0], v) || InTier(Tiers[1], v) || InTier(Tiers[2], v) ||
           InTier(Tiers[3], v) || InTier(Tiers[4], v);
  }
}
