/**
 * The session state machine of the guided exhibit and its impact
 * calculator. A session is a value `Session`; the class `ExhibitState`
 * holds the same six state cells as mutable fields, and each of its methods
 * is proved to move the state exactly as the matching transition function
 * of this module says.
 */
module ExhibitHook {
  import opened ExhibitTypes
  import opened JsMath
  import Landmarks
  import Personas

  // ---------------------------------------------------------------------
  // Impact calculation
  // ---------------------------------------------------------------------

  /** A signed change to each of the three stats. */
  datatype Impact = Impact(health: int, stamina: int, money: int)

  const NoImpact := Impact(0, 0, 0)

  /** A condition's impacts before any persona multiplier. */
  function BaseImpact(c: HiddenCondition): Impact {
    Impact(c.healthImpact, c.staminaImpact, c.moneyImpact)
  }

  /** `multiplier || 1`: an absent axis and a zero one both count as 1. */
  function Factor(m: Option<real>): real {
    if m.Some? && m.value != 0.0 then m.value else 1.0
  }

  /** Default case of `|| 1`: the axis keeps its base impact. */
  predicate Neutral(m: Option<real>) {
    m.None? || m.value == 0.0
  }

  /** One axis of `calculateImpact`: the base impact times `multiplier || 1`, rounded. */
  function Scaled(base: int, m: Option<real>): int {
    Round(base as real * Factor(m))
  }

  /**
   * `calculateImpact`: each base impact scaled by the persona's multiplier
   * on that axis and rounded. Only `persona.id` is read.
   */
  function CalculateImpact(c: HiddenCondition, p: Persona): (r: Impact)
    ensures p.id !in c.personaMultipliers ==> r == BaseImpact(c)
    ensures Neutral(c.MultiplierFor(p.id).health) ==> r.health == c.healthImpact
    ensures Neutral(c.MultiplierFor(p.id).stamina) ==> r.stamina == c.staminaImpact
    ensures Neutral(c.MultiplierFor(p.id).money) ==> r.money == c.moneyImpact
  {
    var m := c.MultiplierFor(p.id);
    Impact(
      Scaled(c.healthImpact, m.health),
      Scaled(c.staminaImpact, m.stamina),
      Scaled(c.moneyImpact, m.money))
  }

  /** A loss scaled by a factor of at least 1 and rounded is no milder than the loss. */
  lemma ScaledLossNoMilder(base: int, f: real)
    requires base <= 0 && f >= 1.0
    ensures Round(base as real * f) <= base
  {
    assert base as real * f - base as real == base as real * (f - 1.0);
    assert base as real * (f - 1.0) <= 0.0;
    RoundMonotone(base as real * f, base as real);
  }

  /** One axis: a loss scaled by an absent, zero or in-range multiplier stays no milder. */
  lemma AxisNeverMilder(base: int, m: Option<real>)
    requires base <= 0 && Landmarks.AxisInRange(m)
    ensures Scaled(base, m) <= base
  {
    ScaledLossNoMilder(base, Factor(m));
  }

  /** A condition with losses only and multipliers of at least 1 is never made milder. */
  lemma ImpactsNeverMilder(c: HiddenCondition, p: Persona)
    requires Landmarks.CatalogCondition(c)
    ensures CalculateImpact(c, p).health <= c.healthImpact
    ensures CalculateImpact(c, p).stamina <= c.staminaImpact
    ensures CalculateImpact(c, p).money <= c.moneyImpact
  {
    var m := c.MultiplierFor(p.id);
    assert Landmarks.AxisInRange(m.health) && Landmarks.AxisInRange(m.stamina) && Landmarks.AxisInRange(m.money) by {
      if p.id in c.personaMultipliers {
        assert Landmarks.MultipliersInRange(c);
        assert m == c.personaMultipliers[p.id];
      }
    }
    AxisNeverMilder(c.healthImpact, m.health);
    AxisNeverMilder(c.staminaImpact, m.stamina);
    AxisNeverMilder(c.moneyImpact, m.money);
  }

  /**
   * For every condition of the catalog and every persona, the adjusted
   * impacts are never milder than the base impacts.
   */
  lemma {:induction false} CatalogImpactsNeverMilder(l: Landmark, c: HiddenCondition, p: Persona)
    requires l in Landmarks.All && c in l.hiddenConditions
    ensures CalculateImpact(c, p).health <= c.healthImpact
    ensures CalculateImpact(c, p).stamina <= c.staminaImpact
    ensures CalculateImpact(c, p).money <= c.moneyImpact
  {
    Landmarks.InCatalog(l, c);
    ImpactsNeverMilder(c, p);
  }

  /** The tourist is never keyed, so in the catalog it always gets the base impacts. */
  lemma {:induction false} TouristGetsBaseImpacts(l: Landmark, c: HiddenCondition)
    requires l in Landmarks.All && c in l.hiddenConditions
    ensures CalculateImpact(c, Personas.Tourist) == BaseImpact(c)
  {
    Landmarks.InCatalog(l, c);
    assert "tourist" !in Landmarks.KeyedPersonas;
  }

  /** Vulnerability tags, name and role are display-only: only the id matters. */
  lemma OnlyThePersonaIdMatters(c: HiddenCondition, p: Persona, q: Persona)
    requires p.id == q.id
    ensures CalculateImpact(c, p) == CalculateImpact(c, q)
  {
  }

  // ---------------------------------------------------------------------
  // Session state and transitions
  // ---------------------------------------------------------------------

  /** One entry of the append-only reveal log. */
  datatype RevealedCondition = RevealedCondition(
    condition: HiddenCondition,
    healthImpact: int,
    staminaImpact: int,
    moneyImpact: int)

  function EntryImpact(e: RevealedCondition): Impact {
    Impact(e.healthImpact, e.staminaImpact, e.moneyImpact)
  }

  /** The six state cells of the exhibit. */
  datatype Session = Session(
    screen: Screen,
    landmark: Option<Landmark>,
    persona: Option<Persona>,
    stats: PlayerStats,
    revealed: seq<RevealedCondition>,
    revealIndex: nat)

  /** The placeholder stats before any persona is chosen. */
  const DefaultStats := PlayerStats(100, 100, 500)

  const InitialSession := Session(Welcome, None, None, DefaultStats, [], 0)

  /** The selected landmark's hidden conditions, none without a landmark. */
  function Conditions(s: Session): seq<HiddenCondition> {
    if s.landmark.Some? then s.landmark.value.hiddenConditions else []
  }

  predicate StatsInRange(st: PlayerStats) {
    0 <= st.health <= 100 && 0 <= st.stamina <= 100 && 0 <= st.money
  }

  /** Health and stamina clamped to [0,100]; money only floored at 0. */
  function ApplyToStats(st: PlayerStats, im: Impact): (r: PlayerStats)
    ensures StatsInRange(r)
    ensures 0 <= st.health + im.health <= 100 ==> r.health == st.health + im.health
    ensures 0 <= st.stamina + im.stamina <= 100 ==> r.stamina == st.stamina + im.stamina
    ensures 0 <= st.money + im.money ==> r.money == st.money + im.money
    ensures st.health + im.health < 0 ==> r.health == 0
    ensures st.health + im.health > 100 ==> r.health == 100
    ensures st.stamina + im.stamina < 0 ==> r.stamina == 0
    ensures st.stamina + im.stamina > 100 ==> r.stamina == 100
    ensures st.money + im.money < 0 ==> r.money == 0
  {
    PlayerStats(
      Max(0, Min(100, st.health + im.health)),
      Max(0, Min(100, st.stamina + im.stamina)),
      Max(0, st.money + im.money))
  }

  /** A reveal has an effect: both selections made and a condition left. */
  predicate CanReveal(s: Session) {
    s.landmark.Some? && s.persona.Some? && s.revealIndex < |s.landmark.value.hiddenConditions|
  }

  /** The impact the next reveal computes. */
  function NextImpact(s: Session): Impact
    requires CanReveal(s)
  {
    CalculateImpact(s.landmark.value.hiddenConditions[s.revealIndex], s.persona.value)
  }

  function SetScreenStep(s: Session, screen: Screen): Session {
    s.(screen := screen)
  }

  function SelectLandmarkStep(s: Session, l: Landmark): Session {
    s.(landmark := Some(l), screen := PersonaChoice)
  }

  /** Selecting a persona resets the stats to its baselines; the log and index are kept. */
  function SelectPersonaStep(s: Session, p: Persona): Session {
    s.(persona := Some(p), stats := Baseline(p), screen := Planning)
  }

  function StartVisitStep(s: Session): Session {
    s.(screen := Reveal, revealIndex := 0, revealed := [])
  }

  /**
   * `revealNextCondition`. Without both selections, or once every condition
   * is revealed, nothing changes. Otherwise the next condition is applied:
   * exactly one log entry is appended, carrying the rounded persona-adjusted
   * impacts (not the clamp-adjusted change), the stats are clamped, and the
   * index advances by one.
   */
  function RevealStep(s: Session): (r: Session)
    ensures !CanReveal(s) ==> r == s
    ensures CanReveal(s) ==>
      && r.screen == s.screen && r.landmark == s.landmark && r.persona == s.persona
      && r.revealIndex == s.revealIndex + 1
      && |r.revealed| == |s.revealed| + 1
      && r.revealed[..|s.revealed|] == s.revealed
      && r.revealed[|s.revealed|].condition == s.landmark.value.hiddenConditions[s.revealIndex]
      && EntryImpact(r.revealed[|s.revealed|]) == NextImpact(s)
      && r.stats == ApplyToStats(s.stats, NextImpact(s))
      && StatsInRange(r.stats)
  {
    if s.landmark.None? || s.persona.None? then s
    else
      var conditions := s.landmark.value.hiddenConditions;
      if s.revealIndex < |conditions| then
        var condition := conditions[s.revealIndex];
        var im := CalculateImpact(condition, s.persona.value);
        s.(revealed := s.revealed + [RevealedCondition(condition, im.health, im.stamina, im.money)],
           stats := ApplyToStats(s.stats, im),
           revealIndex := s.revealIndex + 1)
      else s
  }

  /** `finishVisit` does not check that every condition was revealed. */
  function FinishVisitStep(s: Session): Session {
    s.(screen := Outcome)
  }

  function ResetStep(s: Session): Session {
    InitialSession
  }

  /**
   * `goBack`: landmark to welcome; persona to landmark, clearing the
   * landmark; planning to persona, clearing the persona; every other screen
   * is left as it is. It never touches the stats or the reveal progress.
   */
  function GoBackStep(s: Session): (r: Session)
    ensures s.screen !in {LandmarkChoice, PersonaChoice, Planning} ==> r == s
    ensures s.screen == LandmarkChoice ==> r == s.(screen := Welcome)
    ensures s.screen == PersonaChoice ==> r == s.(screen := LandmarkChoice, landmark := None)
    ensures s.screen == Planning ==> r == s.(screen := PersonaChoice, persona := None)
  {
    match s.screen
    case LandmarkChoice => s.(screen := Welcome)
    case PersonaChoice => s.(landmark := None, screen := LandmarkChoice)
    case Planning => s.(persona := None, screen := PersonaChoice)
    case _ => s
  }

  // ---------------------------------------------------------------------
  // Properties of the transitions
  // ---------------------------------------------------------------------

  /** `resetExhibit` gives the initial session, whatever came before, so it is idempotent. */
  lemma ResetIsIdempotent(s: Session)
    ensures ResetStep(s) == Session(Welcome, None, None, PlayerStats(100, 100, 500), [], 0)
    ensures ResetStep(ResetStep(s)) == ResetStep(s)
  {
  }

  /** Log length equals the reveal index, and every transition keeps it so. */
  predicate LogMatchesIndex(s: Session) {
    |s.revealed| == s.revealIndex
  }

  lemma EveryTransitionKeepsLogLength(s: Session, l: Landmark, p: Persona, screen: Screen)
    requires LogMatchesIndex(s)
    ensures LogMatchesIndex(SetScreenStep(s, screen))
    ensures LogMatchesIndex(SelectLandmarkStep(s, l))
    ensures LogMatchesIndex(SelectPersonaStep(s, p))
    ensures LogMatchesIndex(StartVisitStep(s))
    ensures LogMatchesIndex(RevealStep(s))
    ensures LogMatchesIndex(FinishVisitStep(s))
    ensures LogMatchesIndex(ResetStep(s))
    ensures LogMatchesIndex(GoBackStep(s))
  {
  }

  /** `k` calls of `revealNextCondition` in a row. */
  function Reveals(s: Session, k: nat): Session
    decreases k
  {
    if k == 0 then s else RevealStep(Reveals(s, k - 1))
  }

  /** The conditions named by the log, in log order. */
  function LoggedConditions(log: seq<RevealedCondition>): (cs: seq<HiddenCondition>)
    ensures |cs| == |log| && forall i :: 0 <= i < |log| ==> cs[i] == log[i].condition
  {
    seq(|log|, i requires 0 <= i < |log| => log[i].condition)
  }

  /** The state right after `startVisit` with both selections made. */
  predicate JustStarted(s: Session) {
    s.landmark.Some? && s.persona.Some? && s.revealIndex == 0 && s.revealed == []
  }

  /** Progress of a visit: `i` conditions revealed, in landmark order. */
  predicate RevealedPrefix(s: Session, t: Session, i: nat) {
    && t.landmark == s.landmark && t.persona == s.persona && t.screen == s.screen
    && s.landmark.Some?
    && i <= |s.landmark.value.hiddenConditions|
    && t.revealIndex == i
    && LoggedConditions(t.revealed) == s.landmark.value.hiddenConditions[..i]
  }

  /** One reveal extends the revealed prefix by the next condition. */
  lemma RevealExtendsPrefix(s: Session, t: Session, i: nat)
    requires s.persona.Some? && RevealedPrefix(s, t, i)
    requires i < |s.landmark.value.hiddenConditions|
    ensures RevealedPrefix(s, RevealStep(t), i + 1)
  {
    var conds := s.landmark.value.hiddenConditions;
    assert CanReveal(t);
    var r := RevealStep(t);
    assert r.revealed[..|t.revealed|] == t.revealed;
    assert LoggedConditions(r.revealed) == LoggedConditions(t.revealed) + [conds[i]];
    assert conds[..i + 1] == conds[..i] + [conds[i]];
  }

  /** Up to the condition count, `k` reveals reveal the first `k` conditions. */
  lemma {:induction false} RevealsUpToCount(s: Session, k: nat)
    requires JustStarted(s) && k <= |s.landmark.value.hiddenConditions|
    ensures RevealedPrefix(s, Reveals(s, k), k)
  {
    if k == 0 {
      assert LoggedConditions(s.revealed) == [];
    } else {
      RevealsUpToCount(s, k - 1);
      RevealExtendsPrefix(s, Reveals(s, k - 1), k - 1);
    }
  }

  /** Past the condition count, reveals change nothing. */
  lemma {:induction false} RevealsPastCount(s: Session, k: nat)
    requires JustStarted(s) && k >= |s.landmark.value.hiddenConditions|
    ensures Reveals(s, k) == Reveals(s, |s.landmark.value.hiddenConditions|)
  {
    var n := |s.landmark.value.hiddenConditions|;
    if k > n {
      RevealsPastCount(s, k - 1);
      RevealsUpToCount(s, n);
      assert !CanReveal(Reveals(s, k - 1));
    }
  }

  /**
   * After `startVisit`, `k` reveals leave min(k, N) conditions revealed, N
   * being the landmark's condition count, each logged exactly once and in
   * landmark order; reveals beyond the N-th change nothing.
   */
  lemma RevealsApplyEachConditionOnce(s: Session, k: nat)
    requires JustStarted(s)
    ensures var n := |s.landmark.value.hiddenConditions|;
      && Reveals(s, k) == Reveals(s, Min(k, n))
      && RevealedPrefix(s, Reveals(s, k), Min(k, n))
  {
    var n := |s.landmark.value.hiddenConditions|;
    if k <= n {
      RevealsUpToCount(s, k);
    } else {
      RevealsPastCount(s, k);
      RevealsUpToCount(s, n);
    }
  }

  /** Exhaustion: once all N conditions are revealed, one more reveal is a no-op. */
  lemma {:induction false} NoDoubleApplication(s: Session)
    requires JustStarted(s)
    ensures var n := |s.landmark.value.hiddenConditions|;
      RevealStep(Reveals(s, n)) == Reveals(s, n) && Reveals(s, n).revealIndex == n
  {
    var n := |s.landmark.value.hiddenConditions|;
    RevealsUpToCount(s, n);
    assert !CanReveal(Reveals(s, n));
  }

  /** The sum of the impacts recorded in a log. */
  function Total(log: seq<RevealedCondition>): Impact {
    if log == [] then NoImpact
    else
      var rest := Total(log[..|log| - 1]);
      var last := EntryImpact(log[|log| - 1]);
      Impact(rest.health + last.health, rest.stamina + last.stamina, rest.money + last.money)
  }

  function Plus(st: PlayerStats, im: Impact): PlayerStats {
    PlayerStats(st.health + im.health, st.stamina + im.stamina, st.money + im.money)
  }

  /** The clamp does not fire on the next reveal. */
  predicate NextRevealUnclamped(s: Session) {
    CanReveal(s) ==>
      var im := NextImpact(s);
      0 <= s.stats.health + im.health <= 100 && 0 <= s.stats.stamina + im.stamina <= 100
      && 0 <= s.stats.money + im.money
  }

  /** One unclamped reveal: the new stats are the old plus the entry it logs. */
  lemma UnclampedRevealAdds(s: Session)
    requires CanReveal(s) && NextRevealUnclamped(s)
    ensures var r := RevealStep(s);
      && |r.revealed| > 0
      && r.revealed[..|r.revealed| - 1] == s.revealed
      && r.stats == Plus(s.stats, EntryImpact(r.revealed[|r.revealed| - 1]))
  {
    var r := RevealStep(s);
    var im := NextImpact(s);
    assert r.revealed[..|r.revealed| - 1] == s.revealed;
    assert r.stats == ApplyToStats(s.stats, im);
  }

  /**
   * When no clamp fires along the way, the starting stats plus the logged
   * deltas give the current stats.
   */
  lemma {:induction false} LoggedDeltasAddUpWithoutClamping(s: Session, k: nat)
    requires s.revealed == []
    requires forall j :: 0 <= j < k ==> NextRevealUnclamped(Reveals(s, j))
    ensures Reveals(s, k).stats == Plus(s.stats, Total(Reveals(s, k).revealed))
  {
    if k > 0 {
      LoggedDeltasAddUpWithoutClamping(s, k - 1);
      var prev := Reveals(s, k - 1);
      var r := Reveals(s, k);
      assert r == RevealStep(prev);
      assert NextRevealUnclamped(prev);
      if CanReveal(prev) {
        UnclampedRevealAdds(prev);
      } else {
        assert r == prev;
      }
    }
  }

  /** The elderly persona at Rizal Park: `rp-distance` leaves 64/13/300. */
  lemma ElderlyAtRizalParkFirstReveal()
    ensures var s := StartVisitStep(SelectPersonaStep(
              SelectLandmarkStep(InitialSession, Landmarks.RizalPark), Personas.Elderly));
      var r := RevealStep(s);
      && s.stats == PlayerStats(70, 50, 300)
      && r.revealed == [RevealedCondition(Landmarks.RpDistance, -6, -37, 0)]
      && r.stats == PlayerStats(64, 13, 300)
  {
    assert Landmarks.RizalPark.hiddenConditions[0] == Landmarks.RpDistance;
    assert Landmarks.RpDistance.MultiplierFor("elderly") == Multiplier(Some(1.3), Some(1.5), None);
  }

  /**
   * The elderly persona on the Chocolate Hills stairs: stamina 50 meets a
   * logged -54, the clamp stops it at 0, and 50 + (-54) is not the final 0.
   */
  lemma ClampedRevealBreaksTheSum()
    ensures var s := StartVisitStep(SelectPersonaStep(
              SelectLandmarkStep(InitialSession, Landmarks.ChocolateHills), Personas.Elderly));
      var r := RevealStep(s);
      && r.revealed[0].staminaImpact == -54
      && r.stats.stamina == 0
      && Plus(s.stats, Total(r.revealed)) != r.stats
  {
    assert Landmarks.ChocolateHills.hiddenConditions[0] == Landmarks.ChStairs;
    assert Landmarks.ChStairs.MultiplierFor("elderly") == Multiplier(Some(2.0), Some(1.8), None);
  }

  // ---------------------------------------------------------------------
  // The state cells
  // ---------------------------------------------------------------------

  class ExhibitState {
    var currentScreen: Screen
    var selectedLandmark: Option<Landmark>
    var selectedPersona: Option<Persona>
    var playerStats: PlayerStats
    var revealedConditions: seq<RevealedCondition>
    var currentRevealIndex: nat

    /** The cells as one session value. */
    function Model(): Session
      reads this
    {
      Session(currentScreen, selectedLandmark, selectedPersona, playerStats,
              revealedConditions, currentRevealIndex)
    }

    constructor ()
      ensures Model() == InitialSession
    {
      currentScreen := Welcome;
      selectedLandmark := None;
      selectedPersona := None;
      playerStats := PlayerStats(100, 100, 500);
      revealedConditions := [];
      currentRevealIndex := 0;
    }

    method SetCurrentScreen(screen: Screen)
      modifies this
      ensures Model() == SetScreenStep(old(Model()), screen)
    {
      currentScreen := screen;
    }

    method SelectLandmark(landmark: Landmark)
      modifies this
      ensures Model() == SelectLandmarkStep(old(Model()), landmark)
    {
      selectedLandmark := Some(landmark);
      currentScreen := PersonaChoice;
    }

    method SelectPersona(persona: Persona)
      modifies this
      ensures Model() == SelectPersonaStep(old(Model()), persona)
    {
      selectedPersona := Some(persona);
      playerStats := PlayerStats(persona.initialHealth, persona.initialStamina, persona.initialMoney);
      currentScreen := Planning;
    }

    method StartVisit()
      modifies this
      ensures Model() == StartVisitStep(old(Model()))
    {
      currentScreen := Reveal;
      currentRevealIndex := 0;
      revealedConditions := [];
    }

    method RevealNextCondition()
      modifies this
      ensures Model() == RevealStep(old(Model()))
    {
      if selectedLandmark.None? || selectedPersona.None? {
        return;
      }
      var conditions := selectedLandmark.value.hiddenConditions;
      if currentRevealIndex < |conditions| {
        var condition := conditions[currentRevealIndex];
        var impacts := CalculateImpact(condition, selectedPersona.value);
        revealedConditions := revealedConditions
          + [RevealedCondition(condition, impacts.health, impacts.stamina, impacts.money)];
        playerStats := PlayerStats(
          Max(0, Min(100, playerStats.health + impacts.health)),
          Max(0, Min(100, playerStats.stamina + impacts.stamina)),
          Max(0, playerStats.money + impacts.money));
        currentRevealIndex := currentRevealIndex + 1;
      }
    }

    method FinishVisit()
      modifies this
      ensures Model() == FinishVisitStep(old(Model()))
    {
      currentScreen := Outcome;
    }

    method ResetExhibit()
      modifies this
      ensures Model() == ResetStep(old(Model()))
    {
      currentScreen := Welcome;
      selectedLandmark := None;
      selectedPersona := None;
      playerStats := PlayerStats(100, 100, 500);
      revealedConditions := [];
      currentRevealIndex := 0;
    }

    method GoBack()
      modifies this
      ensures Model() == GoBackStep(old(Model()))
    {
      match currentScreen
      case LandmarkChoice =>
        currentScreen := Welcome;
      case PersonaChoice =>
        selectedLandmark := None;
        currentScreen := LandmarkChoice;
      case Planning =>
        selectedPersona := None;
        currentScreen := PersonaChoice;
      case _ =>
    }
  }
}
