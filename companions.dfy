/**
 * The companion registry: the companions, registered once in a fixed order
 * (the order of the source's `Map`), the lookup by id, and the first-match
 * search by district.
 */
module Companions {
  import opened Wrappers
  import opened TrustEngine

  /** A registered companion (display, personality and dialogue text are not part of this model). */
  datatype Companion = Companion(
    id: string,
    name: string,
    title: string,
    district: string,
    specialQuests: seq<string>,
    culturalInsights: seq<string>)

  /** The five companions, in registration order. */
  function Registry(): (cs: seq<Companion>)
    ensures |cs| == 5
    ensures DistinctIds(cs)
    ensures cs[0].id == "anna"
  {
    [ Companion("anna", "Anna", "The Guide", "Airport/Central",
                ["airport_pickup", "city_tour", "transport_help"],
                ["chennai_traffic", "auto_culture", "tourist_spots"]),
      Companion("priya", "Priya", "The Shopkeeper", "T. Nagar",
                ["bargaining_master", "fashion_guide", "shopping_spree"],
                ["tnagar_shopping", "bargaining_culture", "fashion_trends"]),
      Companion("ravi", "Ravi", "The Fisherman", "Marina Beach",
                ["marina_stories", "fishing_wisdom", "coastal_history"],
                ["chennai_history", "fishing_culture", "coastal_traditions"]),
      Companion("meera", "Meera", "The Temple Guide", "Mylapore",
                ["temple_rituals", "classical_music", "spiritual_journey"],
                ["temple_culture", "classical_arts", "spiritual_traditions"]),
      Companion("arjun", "Arjun", "The Tech Guy", "Express Avenue/IT Corridor",
                ["tech_tour", "startup_culture", "modern_tamil"],
                ["it_culture", "modern_chennai", "youth_lifestyle"]) ]
  }

  predicate DistinctIds(cs: seq<Companion>) {
    forall i, j :: 0 <= i < j < |cs| ==> cs[i].id != cs[j].id
  }

  /** `companions.get(id)`: the registered companion with that id, if any. */
  function Lookup(cs: seq<Companion>, id: string): (r: Option<Companion>)
    ensures r.Some? ==> r.value in cs && r.value.id == id
    ensures r.None? ==> forall k :: 0 <= k < |cs| ==> cs[k].id != id
  {
    if cs == [] then None
    else if cs[0].id == id then Some(cs[0])
    else Lookup(cs[1..], id)
  }

  /** `sub` occurs in `s` starting at position `i`. */
  predicate OccursAt(s: string, sub: string, i: nat) {
    i + |sub| <= |s| && s[i..i + |sub|] == sub
  }

  /** JavaScript's `s.includes(sub)`: `sub` occurs somewhere in `s` (the empty string occurs everywhere). */
  predicate Includes(s: string, sub: string) {
    exists i: nat | i <= |s| :: OccursAt(s, sub, i)
  }

  /** A string holding a character that `s` lacks does not occur in `s`. */
  lemma AbsentCharNotIncluded(s: string, sub: string, c: char)
    requires c in sub && c !in s
    ensures !Includes(s, sub)
  {
  }

  /**
   * The index of the first companion, in registration order, whose district
   * contains `district`; `None` when no district does.
   */
  function FirstMatch(cs: seq<Companion>, district: string): (r: Option<nat>)
    ensures r.Some? ==> r.value < |cs| && Includes(cs[r.value].district, district)
    ensures r.Some? ==> forall k :: 0 <= k < r.value ==> !Includes(cs[k].district, district)
    ensures r.None? ==> forall k :: 0 <= k < |cs| ==> !Includes(cs[k].district, district)
  {
    if cs == [] then None
    else if Includes(cs[0].district, district) then Some(0)
    else match FirstMatch(cs[1..], district)
      case None => None
      case Some(k) => Some(k + 1)
  }

  /** The first matching position is the one `FirstMatch` reports. */
  lemma {:induction false} FirstMatchAt(cs: seq<Companion>, district: string, k: nat)
    requires k < |cs| && Includes(cs[k].district, district)
    requires forall j :: 0 <= j < k ==> !Includes(cs[j].district, district)
    ensures FirstMatch(cs, district) == Some(k)
  {
    if k > 0 {
      FirstMatchAt(cs[1..], district, k - 1);
    }
  }

  lemma AnnaLacksBeach() ensures !Includes(Registry()[0].district, "Beach") {
    AbsentCharNotIncluded("Airport/Central", "Beach", 'B');
  }

  lemma PriyaLacksBeach() ensures !Includes(Registry()[1].district, "Beach") {
    AbsentCharNotIncluded("T. Nagar", "Beach", 'B');
  }

  lemma RaviHasBeach() ensures Includes(Registry()[2].district, "Beach") {
    assert OccursAt("Marina Beach", "Beach", 7);
  }

  /** The district "Beach" selects Ravi, the third registered companion (Marina Beach). */
  lemma BeachSelectsRavi()
    ensures FirstMatch(Registry(), "Beach") == Some(2)
    ensures Registry()[2].id == "ravi"
  {
    AnnaLacksBeach();
    PriyaLacksBeach();
    RaviHasBeach();
    FirstMatchAt(Registry(), "Beach", 2);
  }
}
