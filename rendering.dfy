/** The classification rules the property table and the distribution pie apply
    to each row or slice: the score badge tier and its colours, the occupancy
    status, and the cycling of slice colours. */
module Rendering {
  import opened Records
  import opened Distribution

  /** The three score badges. */
  datatype Tier = High | Medium | Low

  /** The badge of a performance score: 85 and above is high, 75 up to 85 is medium, the rest low. */
  function ScoreTier(score: real): (t: Tier)
    ensures t == High <==> score >= 85.0
    ensures t == Medium <==> 75.0 <= score < 85.0
    ensures t == Low <==> score < 75.0
  {
    if score >= 85.0 then High else if score >= 75.0 then Medium else Low
  }

  /** The rank of a tier, low being 0. */
  function Rank(t: Tier): nat {
    match t
    case Low => 0
    case Medium => 1
    case High => 2
  }

  /** A higher score never gets a lower badge. */
  lemma TierMonotone(a: real, b: real)
    requires a <= b
    ensures Rank(ScoreTier(a)) <= Rank(ScoreTier(b))
  {
  }

  /** The background and text colours of a badge: a light background under a
      dark text of the same hue, so the two always differ. */
  function BadgeColors(t: Tier): (colors: (string, string))
    ensures colors.0 != colors.1
    ensures colors.0 in {"#d1fae5", "#fef3c7", "#fee2e2"}
    ensures colors.1 in {"#065f46", "#92400e", "#991b1b"}
  {
    match t
    case High => ("#d1fae5", "#065f46")
    case Medium => ("#fef3c7", "#92400e")
    case Low => ("#fee2e2", "#991b1b")
  }

  /** Different tiers are drawn in different background and text colours. */
  lemma BadgeColorsDistinguishTiers(t: Tier, u: Tier)
    requires t != u
    ensures BadgeColors(t).0 != BadgeColors(u).0
    ensures BadgeColors(t).1 != BadgeColors(u).1
  {
  }

  /** The status column. */
  datatype Status = Occupied | Available

  /** A unit is shown as occupied exactly when its occupancy is 100 percent. */
  function OccupancyStatus(occupancy: int): (st: Status)
    ensures st == Occupied <==> occupancy == 100
    ensures st == Available <==> occupancy != 100
  {
    if occupancy == 100 then Occupied else Available
  }

  /** The test is an exact comparison, not a threshold: an over-full value
      (above 100) is shown as Available, although a full unit is Occupied. */
  lemma OverFullShownAvailable(occupancy: int)
    requires occupancy > 100
    ensures OccupancyStatus(occupancy) == Available
    ensures OccupancyStatus(100) == Occupied
  {
  }

  /** The pie's palette. */
  const Colors: seq<string> := ["#3b82f6", "#10b981", "#f59e0b", "#ef4444"]

  /** The colour of the slice at `index`: the palette, cycled. */
  function SliceColor(index: nat): (c: string)
    ensures c in Colors
    ensures index < |Colors| ==> c == Colors[index]
  {
    Colors[index % |Colors|]
  }

  /** The colours repeat every four slices. */
  lemma SliceColorsCycle(index: nat)
    ensures SliceColor(index + |Colors|) == SliceColor(index)
  {
  }

  /** Slices less than four apart have different colours, so a distribution of
      at most four property types gives every type its own colour. */
  lemma NearbySlicesDiffer(i: nat, j: nat)
    requires i < j < i + |Colors|
    ensures SliceColor(i) != SliceColor(j)
  {
  }

  /** When the records have at most four property types, two slices of the
      distribution pie share a colour exactly when they are the same type's slice. */
  lemma SmallDistributionColorsDistinct(s: seq<PropertyRecord>)
    requires |FirstSeen(s)| <= |Colors|
    ensures forall i, j | 0 <= i < |PropertyTypes(s)| && 0 <= j < |PropertyTypes(s)| ::
      SliceColor(i) == SliceColor(j) <==> PropertyTypes(s)[i].name == PropertyTypes(s)[j].name
  {
  }
}
