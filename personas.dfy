/** The fixed catalog of four visitor archetypes. */
module Personas {
  import opened ExhibitTypes

  const Elderly := Persona("elderly", "Lola Carmen", "Elderly History Enthusiast",
    70, 50, 300, ["stairs", "distance", "heat"])

  const Parent := Persona("parent", "Mark & Baby Sofia", "Parent with Stroller",
    90, 70, 500, ["accessibility", "facilities", "crowds"])

  const LimitedStamina := Persona("limited-stamina", "Ana", "Visitor with Chronic Fatigue",
    80, 40, 400, ["distance", "unpredictability", "standing"])

  const Tourist := Persona("tourist", "David", "First-Time Tourist",
    95, 85, 600, ["pricing", "navigation", "language"])

  /** The catalog in display order. */
  const All: seq<Persona> := [Elderly, Parent, LimitedStamina, Tourist]

  /** The ids used as multiplier keys. */
  function Ids(): (ids: set<PersonaId>)
    ensures forall p :: p in All ==> p.id in ids
    ensures forall id :: id in ids ==> exists p :: p in All && p.id == id
  {
    set p | p in All :: p.id
  }

  /** Exactly four personas, with pairwise distinct ids. */
  lemma FourDistinctPersonas()
    ensures |All| == 4
    ensures forall i, j :: 0 <= i < j < |All| ==> All[i].id != All[j].id
    ensures Ids() == {"elderly", "parent", "limited-stamina", "tourist"}
  {
  }

  /** Every baseline is usable: health and stamina in [0,100], money strictly positive. */
  lemma BaselinesInRange()
    ensures forall p :: p in All ==>
      0 <= p.initialHealth <= 100 && 0 <= p.initialStamina <= 100 && p.initialMoney > 0
  {
  }
}
