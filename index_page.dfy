/**
 * The guided exhibit's page: which screen is drawn for a session, which
 * commands that screen offers, and what each command does to the session.
 * Together with the hook's transitions this gives the exhibit's reachable
 * sessions, characterised by `Reachable`.
 */
module IndexPage {
  import opened ExhibitTypes
  import opened ExhibitHook
  import Landmarks
  import Personas
  import RevealScreen
  import OutcomeScreen

  /** The screen drawn, with the data handed to it; `NoView` is the `null` fallback. */
  datatype View =
    | NoView
    | WelcomeView
    | LandmarkView(landmarks: seq<Landmark>)
    | PersonaView(landmark: Landmark, personas: seq<Persona>)
    | PlanningView(landmark: Landmark, persona: Persona, stats: PlayerStats)
    | RevealView(landmark: Landmark, persona: Persona, stats: PlayerStats,
                 revealed: seq<RevealedCondition>, revealIndex: nat)
    | OutcomeView(landmark: Landmark, persona: Persona, stats: PlayerStats,
                  initialStats: PlayerStats, revealed: seq<RevealedCondition>)

  /** A screen needs its selections, else nothing is drawn. */
  predicate HasSelections(s: Session) {
    match s.screen
    case Welcome => true
    case LandmarkChoice => true
    case PersonaChoice => s.landmark.Some?
    case _ => s.landmark.Some? && s.persona.Some?
  }

  /**
   * `renderScreen`. The outcome screen compares against the persona's
   * baselines, not against the stats held when the visit started.
   */
  function RenderScreen(s: Session): (v: View)
    ensures v.NoView? <==> !HasSelections(s)
    ensures v.OutcomeView? ==> v.initialStats == Baseline(v.persona) && v.stats == s.stats
    ensures v.RevealView? ==> v.revealed == s.revealed && v.revealIndex == s.revealIndex
    ensures v.LandmarkView? ==> v.landmarks == Landmarks.All
    ensures v.PersonaView? ==> v.personas == Personas.All
  {
    match s.screen
    case Welcome => WelcomeView
    case LandmarkChoice => LandmarkView(Landmarks.All)
    case PersonaChoice =>
      if s.landmark.Some? then PersonaView(s.landmark.value, Personas.All) else NoView
    case Planning =>
      if s.landmark.Some? && s.persona.Some?
      then PlanningView(s.landmark.value, s.persona.value, s.stats) else NoView
    case Reveal =>
      if s.landmark.Some? && s.persona.Some?
      then RevealView(s.landmark.value, s.persona.value, s.stats, s.revealed, s.revealIndex)
      else NoView
    case Outcome =>
      if s.landmark.Some? && s.persona.Some?
      then OutcomeView(s.landmark.value, s.persona.value, s.stats,
                       Baseline(s.persona.value), s.revealed)
      else NoView
  }

  /** What a visitor can do. */
  datatype Command =
    | Begin
    | PickLandmark(landmark: Landmark)
    | PickPersona(persona: Persona)
    | Start
    | Continue
    | Finish
    | Reset
    | Back

  /**
   * The commands each screen's buttons offer. The reveal screen shows one
   * button, chosen by its progress; neither it nor the outcome screen has a
   * back button.
   */
  predicate Offers(v: View, c: Command)
    ensures Offers(v, c) ==> !v.NoView?
    ensures Offers(v, c) && c.Back? ==> v.LandmarkView? || v.PersonaView? || v.PlanningView?
    ensures v.RevealView? ==>
      (Offers(v, c) <==>
        if RevealScreen.AllRevealed(v.revealIndex, |v.landmark.hiddenConditions|) then c.Finish? else c.Continue?)
  {
    match v
    case NoView => false
    case WelcomeView => c.Begin?
    case LandmarkView(ls) => (c.PickLandmark? && c.landmark in ls) || c.Back?
    case PersonaView(_, ps) => (c.PickPersona? && c.persona in ps) || c.Back?
    case PlanningView(_, _, _) => c.Start? || c.Back?
    case RevealView(l, _, _, _, index) =>
      if RevealScreen.ActionButton(index, |l.hiddenConditions|) == RevealScreen.ContinueWalking
      then c.Continue? else c.Finish?
    case OutcomeView(_, _, _, _, _) => c.Reset?
  }

  /** The hook operation each command is wired to. */
  function Step(s: Session, c: Command): (r: Session)
    ensures c.Begin? ==> r == s.(screen := LandmarkChoice)
    ensures c.PickLandmark? ==> r == s.(landmark := Some(c.landmark), screen := PersonaChoice)
    ensures c.PickPersona? ==>
      r == s.(persona := Some(c.persona), stats := Baseline(c.persona), screen := Planning)
    ensures c.Start? ==> r == s.(screen := Reveal, revealed := [], revealIndex := 0)
    ensures c.Continue? ==> r.screen == s.screen && r.landmark == s.landmark && r.persona == s.persona
    ensures c.Finish? ==> r == s.(screen := Outcome)
    ensures c.Reset? ==> r == InitialSession
  {
    match c
    case Begin => SetScreenStep(s, LandmarkChoice)
    case PickLandmark(l) => SelectLandmarkStep(s, l)
    case PickPersona(p) => SelectPersonaStep(s, p)
    case Start => StartVisitStep(s)
    case Continue => RevealStep(s)
    case Finish => FinishVisitStep(s)
    case Reset => ResetStep(s)
    case Back => GoBackStep(s)
  }

  /** Both selections made, from the catalog. */
  predicate Chosen(s: Session) {
    && s.landmark.Some? && s.landmark.value in Landmarks.All
    && s.persona.Some? && s.persona.value in Personas.All
  }

  predicate NoProgress(s: Session) {
    s.revealed == [] && s.revealIndex == 0
  }

  /**
   * A visit under way: the log names the landmark's first conditions in
   * order, one entry per reveal, and the stats are in range and no better
   * than the persona's baselines.
   */
  predicate Visiting(s: Session) {
    && Chosen(s)
    && var conds := s.landmark.value.hiddenConditions;
    && var b := Baseline(s.persona.value);
    && |s.revealed| == s.revealIndex <= |conds|
    && LoggedConditions(s.revealed) == conds[..s.revealIndex]
    && StatsInRange(s.stats)
    && s.stats.health <= b.health && s.stats.stamina <= b.stamina && s.stats.money <= b.money
  }

  /** The sessions the page can reach from the initial one. */
  predicate Reachable(s: Session) {
    match s.screen
    case Welcome => s.landmark.None? && s.persona.None? && NoProgress(s)
    case LandmarkChoice => s.landmark.None? && s.persona.None? && NoProgress(s)
    case PersonaChoice =>
      s.landmark.Some? && s.landmark.value in Landmarks.All && s.persona.None? && NoProgress(s)
    case Planning => Chosen(s) && NoProgress(s) && s.stats == Baseline(s.persona.value)
    case Reveal => Visiting(s)
    case Outcome => Visiting(s) && s.revealIndex == |s.landmark.value.hiddenConditions|
  }

  lemma InitialSessionReachable()
    ensures Reachable(InitialSession)
  {
  }

  /** Continuing a visit that has a condition left keeps it a visit. */
  lemma {:induction false} ContinueKeepsVisiting(s: Session)
    requires Visiting(s) && s.revealIndex < |s.landmark.value.hiddenConditions|
    ensures Visiting(RevealStep(s))
  {
    var l := s.landmark.value;
    var c := l.hiddenConditions[s.revealIndex];
    Landmarks.InCatalog(l, c);
    CatalogImpactsNeverMilder(l, c, s.persona.value);
    assert LoggedConditions(s.revealed) == l.hiddenConditions[..s.revealIndex];
    assert RevealedPrefix(s, s, s.revealIndex);
    RevealExtendsPrefix(s, s, s.revealIndex);
  }

  /** Starting a visit from the planning screen begins one. */
  lemma {:induction false} StartBeginsVisiting(s: Session)
    requires Reachable(s) && s.screen == Planning
    ensures Visiting(StartVisitStep(s))
  {
    Personas.BaselinesInRange();
    assert LoggedConditions([]) == s.landmark.value.hiddenConditions[..0];
  }

  /** Every command a reachable session's screen offers leads to a reachable session. */
  lemma {:induction false} StepKeepsReachable(s: Session, c: Command)
    requires Reachable(s) && Offers(RenderScreen(s), c)
    ensures Reachable(Step(s, c))
  {
    match c
    case Start =>
      StartBeginsVisiting(s);
    case Continue =>
      ContinueKeepsVisiting(s);
    case _ =>
  }

  /** A reachable session always draws a screen: the `null` fallbacks are never taken. */
  lemma ReachableAlwaysRenders(s: Session)
    requires Reachable(s)
    ensures !RenderScreen(s).NoView?
  {
  }

  /**
   * On the outcome screen every condition of the landmark has been applied
   * exactly once, in order, although `finishVisit` itself does not check it.
   */
  lemma {:induction false} OutcomeAfterEveryCondition(s: Session)
    requires Reachable(s) && s.screen == Outcome
    ensures LoggedConditions(s.revealed) == s.landmark.value.hiddenConditions
    ensures !CanReveal(s)
  {
    var conds := s.landmark.value.hiddenConditions;
    assert conds[..|conds|] == conds;
  }

  /** The outcome screen never reports a gain, and its tier counts only health and stamina. */
  lemma {:induction false} OutcomeReportsLosses(s: Session)
    requires Reachable(s) && s.screen == Outcome
    ensures var l := OutcomeScreen.LossesOf(RenderScreen(s).initialStats, RenderScreen(s).stats);
      && l.healthLost >= 0 && l.staminaLost >= 0 && l.moneySpent >= 0
      && (OutcomeScreen.GetOutcomeLevel(l) == OutcomeScreen.Mild
          <==> l.healthLost + l.staminaLost <= 30)
  {
  }

  /**
   * On the reveal screen each condition card is uncovered exactly when its
   * condition is in the log, and shows that entry's impacts, or zeros.
   */
  lemma {:induction false} RevealCardsShowTheLog(s: Session, i: nat)
    requires Reachable(s) && s.screen == Reveal
    requires i < |s.landmark.value.hiddenConditions|
    ensures var conds := s.landmark.value.hiddenConditions;
      && (RevealScreen.IsRevealed(i, s.revealIndex)
          <==> RevealScreen.FindById(s.revealed, conds[i].id).Some?)
      && (RevealScreen.IsRevealed(i, s.revealIndex)
          ==> RevealScreen.ShownImpact(s.revealed, conds[i]) == EntryImpact(s.revealed[i]))
      && (!RevealScreen.IsRevealed(i, s.revealIndex)
          ==> RevealScreen.ShownImpact(s.revealed, conds[i]) == NoImpact)
  {
    var conds := s.landmark.value.hiddenConditions;
    Landmarks.EachLandmarkHasUniqueIds();
    assert UniqueIds(conds);
    forall j | 0 <= j < |s.revealed| ensures s.revealed[j].condition == conds[j] {
      assert LoggedConditions(s.revealed)[j] == conds[..s.revealIndex][j];
    }
    RevealScreen.CardsAgreeWithLog(s.revealed, conds, i);
  }

  /** Once a visit has started there is no way back: only reset returns to the start. */
  lemma NoBackDuringOrAfterVisit(s: Session)
    requires s.screen == Reveal || s.screen == Outcome
    ensures !Offers(RenderScreen(s), Back)
  {
  }

  /** The welcome screen offers one thing: going to the landmark choice. */
  lemma WelcomeOnlyStarts(s: Session, c: Command)
    requires s.screen == Welcome && Offers(RenderScreen(s), c)
    ensures c == Begin && Step(s, c).screen == LandmarkChoice
  {
  }

  /** Dispatches a command offered by the current screen to the state cells. */
  method Dispatch(e: ExhibitState, c: Command)
    requires Offers(RenderScreen(e.Model()), c)
    modifies e
    ensures e.Model() == Step(old(e.Model()), c)
  {
    match c
    case Begin => e.SetCurrentScreen(LandmarkChoice);
    case PickLandmark(l) => e.SelectLandmark(l);
    case PickPersona(p) => e.SelectPersona(p);
    case Start => e.StartVisit();
    case Continue => e.RevealNextCondition();
    case Finish => e.FinishVisit();
    case Reset => e.ResetExhibit();
    case Back => e.GoBack();
  }
}
