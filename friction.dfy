/** The friction map: each hotspot's intensity is shown as a High, Medium or Low tier. */
module Friction {

  datatype Tier = Low | Medium | High

  /** Position of a tier on the scale Low < Medium < High. */
  function TierRank(t: Tier): nat
  {
    match t
    case Low => 0
    case Medium => 1
    case High => 2
  }

  /** One friction hotspot as the map receives it. */
  datatype Hotspot = Hotspot(area: string, intensity: real, roles: seq<string>)

  /** The tier of an intensity. Both boundaries belong to the lower tier. */
  function TierOf(intensity: real): (t: Tier)
    ensures t == High <==> intensity > 0.65
    ensures t == Medium <==> 0.5 < intensity <= 0.65
    ensures t == Low <==> intensity <= 0.5
  {
    if intensity > 0.65 then High
    else if intensity > 0.5 then Medium
    else Low
  }

  /** The tiers of a list of hotspots, one per hotspot, in the same order. */
  function Tiers(hotspots: seq<Hotspot>): (tiers: seq<Tier>)
    ensures |tiers| == |hotspots|
    ensures forall i :: 0 <= i < |hotspots| ==> tiers[i] == TierOf(hotspots[i].intensity)
  {
    if hotspots == [] then [] else [TierOf(hotspots[0].intensity)] + Tiers(hotspots[1..])
  }

  /** The tier never drops as intensity grows. */
  lemma TierMonotone(x: real, y: real)
    requires x <= y
    ensures TierRank(TierOf(x)) <= TierRank(TierOf(y))
  {
  }

  /** A boundary value falls in the tier below it. */
  lemma TierBoundaries()
    ensures TierOf(0.5) == Low
    ensures TierOf(0.65) == Medium
  {
  }

  /** The cycle-1 hotspots of the simulated baseline are High, Medium, Medium, Low. */
  lemma Cycle1Hotspots()
    ensures Tiers([
      Hotspot("Review & verification", 0.72, ["Legal", "Compliance", "Senior leads"]),
      Hotspot("Prompt iteration", 0.58, ["All roles"]),
      Hotspot("Output correction", 0.64, ["Content", "Marketing", "Comms"]),
      Hotspot("Tool switching", 0.45, ["Operations", "Finance"])
    ]) == [High, Medium, Medium, Low]
  {
  }
}
