/**
 * The record shapes shared by every part of the exhibit: landmarks with
 * their ordered hidden conditions, the personas, the player's stat triple
 * and the screens of the guided exhibit.
 *
 * The condition-type union here is the one the catalog data actually uses
 * (seventeen kinds), not the six-member union of the type declaration.
 */
module ExhibitTypes {

  datatype Option<+T> = None | Some(value: T)

  datatype Region = Luzon | Visayas | Mindanao

  datatype ConditionType =
    | Stairs | Distance | Seating | Shade | Accessibility | Transport
    | Crowd | Terrain | Weather | Cost | Safety | Wildlife | Altitude
    | Water | Vendors | Signage | Restroom

  type PersonaId = string

  /** A partial multiplier record `{health?, stamina?, money?}`; `None` is an absent field. */
  datatype Multiplier = Multiplier(health: Option<real>, stamina: Option<real>, money: Option<real>)

  /** The empty record `{}`. */
  const NoMultiplier := Multiplier(None, None, None)

  /**
   * A hidden condition. Its text description is display-only and is not
   * carried here. Its `label` is kept, as `title` (`label` is a Dafny
   * keyword), because the compact variant writes it into its event log.
   */
  datatype HiddenCondition = HiddenCondition(
    id: string,
    kind: ConditionType,
    title: string,
    healthImpact: int,
    staminaImpact: int,
    moneyImpact: int,
    personaMultipliers: map<PersonaId, Multiplier>)
  {
    /** `personaMultipliers?.[personaId]`, with the empty record when there is no entry. */
    function MultiplierFor(personaId: PersonaId): (m: Multiplier)
      ensures personaId !in personaMultipliers ==> m == NoMultiplier
      ensures personaId in personaMultipliers ==> m == personaMultipliers[personaId]
    {
      if personaId in personaMultipliers then personaMultipliers[personaId] else NoMultiplier
    }
  }

  datatype Landmark = Landmark(
    id: string,
    name: string,
    location: string,
    region: Region,
    hiddenConditions: seq<HiddenCondition>)

  datatype Persona = Persona(
    id: PersonaId,
    name: string,
    role: string,
    initialHealth: int,
    initialStamina: int,
    initialMoney: int,
    vulnerabilities: seq<string>)

  datatype PlayerStats = PlayerStats(health: int, stamina: int, money: int)

  /** A persona's starting stats. */
  function Baseline(p: Persona): PlayerStats {
    PlayerStats(p.initialHealth, p.initialStamina, p.initialMoney)
  }

  /**
   * The screens of the guided exhibit: 'welcome', 'landmark', 'persona',
   * 'planning', 'reveal' and 'outcome'.
   */
  datatype Screen = Welcome | LandmarkChoice | PersonaChoice | Planning | Reveal | Outcome

  /** No two conditions of the sequence share an id. */
  predicate UniqueIds(cs: seq<HiddenCondition>) {
    forall i, j :: 0 <= i < j < |cs| ==> cs[i].id != cs[j].id
  }
}
