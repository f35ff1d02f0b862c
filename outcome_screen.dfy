/**
 * The outcome screen's arithmetic: what was lost over the visit, the
 * severity tier it is reported under, and how each loss is written.
 */
module OutcomeScreen {
  import opened ExhibitTypes

  datatype OutcomeLevel = Mild | Moderate | Severe

  /** What the visit cost on each stat: initial minus final. */
  datatype Losses = Losses(healthLost: int, staminaLost: int, moneySpent: int)

  function LossesOf(initial: PlayerStats, final: PlayerStats): (r: Losses)
    ensures final.health == initial.health - r.healthLost
    ensures final.stamina == initial.stamina - r.staminaLost
    ensures final.money == initial.money - r.moneySpent
  {
    Losses(initial.health - final.health, initial.stamina - final.stamina,
           initial.money - final.money)
  }

  /**
   * The tier of a visit, from health plus stamina lost: above 60 severe,
   * above 30 moderate, otherwise mild. Money does not enter it.
   */
  function GetOutcomeLevel(l: Losses): (r: OutcomeLevel)
    ensures r == Severe <==> l.healthLost + l.staminaLost > 60
    ensures r == Moderate <==> 30 < l.healthLost + l.staminaLost <= 60
    ensures r == Mild <==> l.healthLost + l.staminaLost <= 30
  {
    var total := l.healthLost + l.staminaLost;
    if total > 60 then Severe
    else if total > 30 then Moderate
    else Mild
  }

  function Rank(o: OutcomeLevel): nat {
    match o
    case Mild => 0
    case Moderate => 1
    case Severe => 2
  }

  /** Losing more health plus stamina never gives a milder tier. */
  lemma OutcomeLevelMonotone(a: Losses, b: Losses)
    requires a.healthLost + a.staminaLost <= b.healthLost + b.staminaLost
    ensures Rank(GetOutcomeLevel(a)) <= Rank(GetOutcomeLevel(b))
  {
  }

  /** The thresholds are strict: 30 is still mild and 60 still moderate. */
  lemma OutcomeBoundaries()
    ensures GetOutcomeLevel(Losses(30, 0, 0)) == Mild
    ensures GetOutcomeLevel(Losses(15, 16, 0)) == Moderate
    ensures GetOutcomeLevel(Losses(0, 60, 0)) == Moderate
    ensures GetOutcomeLevel(Losses(30, 31, 0)) == Severe
  {
  }

  /** Spending, however much, never changes the tier. */
  lemma SpendingDoesNotChangeTheTier(initial: PlayerStats, a: PlayerStats, b: PlayerStats)
    requires a.health == b.health && a.stamina == b.stamina
    ensures GetOutcomeLevel(LossesOf(initial, a)) == GetOutcomeLevel(LossesOf(initial, b))
  {
  }

  /** How a health or stamina loss is shown: `-N` for a loss, `0` for none or a gain. */
  datatype LossText = Minus(amount: nat) | ZeroText

  function ShowLoss(lost: int): (t: LossText)
    ensures t.Minus? <==> lost > 0
    ensures t.Minus? ==> t.amount == lost
  {
    if lost > 0 then Minus(lost) else ZeroText
  }

  /** How the cost is shown: `₱N` for money spent, `₱0` otherwise. */
  datatype CostText = Peso(amount: nat)

  function ShowCost(spent: int): (t: CostText)
    ensures spent > 0 ==> t.amount == spent
    ensures spent <= 0 ==> t.amount == 0
  {
    if spent > 0 then Peso(spent) else Peso(0)
  }
}
