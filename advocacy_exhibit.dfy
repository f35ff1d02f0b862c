/**
 * The compact navigation game: the visitor picks a landmark and a persona,
 * answers a planning question, then walks a fixed nine-node map; each
 * direction chosen reveals one not-yet-revealed obstacle of the landmark
 * and applies its impacts. Stats here are exact reals, clamped to [0,100]
 * on all three axes, money included; multipliers default with `?? 1`.
 */
module AdvocacyExhibit {
  import opened ExhibitTypes
  import opened JsMath
  import ExhibitHook
  import Landmarks
  import Personas

  datatype Step = LandmarkStep | PersonaStep | TraditionalStep | NavigateStep | RevealStep

  datatype StatKey = Health | Stamina | Money

  datatype NavDirection = Left | Straight | Right

  datatype PlanningAnswer = Safe | Unsure | NotReady

  /** A value per stat. */
  datatype Record<T> = Record(health: T, stamina: T, money: T) {
    function Get(k: StatKey): T {
      match k
      case Health => health
      case Stamina => stamina
      case Money => money
    }

    function Set(k: StatKey, v: T): (r: Record<T>)
      ensures r.Get(k) == v
      ensures forall k' :: k' != k ==> r.Get(k') == Get(k')
    {
      match k
      case Health => this.(health := v)
      case Stamina => this.(stamina := v)
      case Money => this.(money := v)
    }
  }

  /** The keys in the order `Object.keys` lists them. */
  const Keys: seq<StatKey> := [Health, Stamina, Money]

  /** A persona multiplier's entry for one stat. */
  function Axis(m: Multiplier, k: StatKey): Option<real> {
    match k
    case Health => m.health
    case Stamina => m.stamina
    case Money => m.money
  }

  /** `clamp`: to [0,100], for every stat. */
  function Clamp(v: real): (r: real)
    ensures 0.0 <= r <= 100.0
    ensures 0.0 <= v <= 100.0 ==> r == v
    ensures v < 0.0 ==> r == 0.0
    ensures v > 100.0 ==> r == 100.0
  {
    if v >= 100.0 then 100.0 else if v <= 0.0 then 0.0 else v
  }

  /** `personaMultiplier[key] ?? 1`: only an absent entry defaults, an explicit 0 stays 0. */
  function BoostFactor(m: Option<real>): real {
    if m.Some? then m.value else 1.0
  }

  /** The stat after one impact: previous value plus scaled delta, clamped. */
  function NextValue(prev: real, base: int, m: Option<real>): real {
    Clamp(prev + base as real * BoostFactor(m))
  }

  /** The change recorded for a stat: the clamp-adjusted change, rounded. */
  function AppliedDelta(prev: real, base: int, m: Option<real>): int {
    Round(NextValue(prev, base, m) - prev)
  }

  /** The stats after an impact, every key updated. */
  function UpdatedStats(prev: Record<real>, impacts: Record<int>, m: Multiplier): (r: Record<real>)
    ensures forall k :: r.Get(k) == NextValue(prev.Get(k), impacts.Get(k), Axis(m, k))
  {
    Record(
      NextValue(prev.health, impacts.health, m.health),
      NextValue(prev.stamina, impacts.stamina, m.stamina),
      NextValue(prev.money, impacts.money, m.money))
  }

  /** The changes recorded for an impact, every key. */
  function AppliedDeltas(prev: Record<real>, impacts: Record<int>, m: Multiplier): (r: Record<int>)
    ensures forall k :: r.Get(k) == AppliedDelta(prev.Get(k), impacts.Get(k), Axis(m, k))
  {
    Record(
      AppliedDelta(prev.health, impacts.health, m.health),
      AppliedDelta(prev.stamina, impacts.stamina, m.stamina),
      AppliedDelta(prev.money, impacts.money, m.money))
  }

  /** After the first `n` keys: those keys updated, the others as before. */
  predicate UpdatedThrough(prev: Record<real>, impacts: Record<int>, m: Multiplier, n: nat,
                           updated: Record<real>, applied: Record<int>)
    requires n <= |Keys|
  {
    forall j :: 0 <= j < |Keys| ==>
      if j < n then
        && updated.Get(Keys[j]) == NextValue(prev.Get(Keys[j]), impacts.Get(Keys[j]), Axis(m, Keys[j]))
        && applied.Get(Keys[j]) == AppliedDelta(prev.Get(Keys[j]), impacts.Get(Keys[j]), Axis(m, Keys[j]))
      else
        updated.Get(Keys[j]) == prev.Get(Keys[j]) && applied.Get(Keys[j]) == 0
  }

  /**
   * The body of the stats updater: a pass over the keys that fills the new
   * stats and the recorded changes. All three stats end in [0,100].
   */
  method ComputeUpdate(prev: Record<real>, impacts: Record<int>, m: Multiplier)
    returns (updated: Record<real>, applied: Record<int>)
    ensures updated == UpdatedStats(prev, impacts, m)
    ensures applied == AppliedDeltas(prev, impacts, m)
    ensures forall k :: 0.0 <= updated.Get(k) <= 100.0
  {
    applied := Record(0, 0, 0);
    updated := prev;
    var i := 0;
    while i < |Keys|
      invariant 0 <= i <= |Keys|
      invariant UpdatedThrough(prev, impacts, m, i, updated, applied)
    {
      var key := Keys[i];
      var nextValue := Clamp(prev.Get(key) + impacts.Get(key) as real * BoostFactor(Axis(m, key)));
      applied := applied.Set(key, Round(nextValue - prev.Get(key)));
      updated := updated.Set(key, nextValue);
      i := i + 1;
    }
    assert Keys[0] == Health && Keys[1] == Stamina && Keys[2] == Money;
    assert UpdatedThrough(prev, impacts, m, 3, updated, applied);
    assert updated.Get(Health) == UpdatedStats(prev, impacts, m).Get(Health);
  }

  /**
   * The change recorded is the change the clamp lets through: unclamped it
   * is the rounded scaled delta, clamped at 0 it is minus the previous
   * value, rounded, and clamped at 100 it is the headroom, rounded.
   */
  lemma AppliedIsClampAdjusted(prev: real, base: int, m: Option<real>)
    ensures var raw := prev + base as real * BoostFactor(m);
      && (0.0 <= raw <= 100.0 ==> AppliedDelta(prev, base, m) == Round(base as real * BoostFactor(m)))
      && (raw < 0.0 ==> AppliedDelta(prev, base, m) == Round(-prev))
      && (raw > 100.0 ==> AppliedDelta(prev, base, m) == Round(100.0 - prev))
  {
    var delta := base as real * BoostFactor(m);
    var raw := prev + delta;
    assert NextValue(prev, base, m) == Clamp(raw);
    if 0.0 <= raw <= 100.0 {
      assert Clamp(raw) - prev == delta;
    } else if raw < 0.0 {
      assert Clamp(raw) - prev == -prev;
    } else {
      assert Clamp(raw) - prev == 100.0 - prev;
    }
  }

  /** An explicit zero multiplier cancels the impact here, while the hook's `|| 1` treats it as 1. */
  lemma ZeroMultiplierZeroesTheDelta(prev: real, base: int)
    requires 0.0 <= prev <= 100.0
    ensures NextValue(prev, base, Some(0.0)) == prev
    ensures AppliedDelta(prev, base, Some(0.0)) == 0
    ensures ExhibitHook.Factor(Some(0.0)) == 1.0
  {
    RoundOfInteger(0);
  }

  // ---------------------------------------------------------------------
  // Event log
  // ---------------------------------------------------------------------

  /** `key +N` or `key -N`, one per stat that changed. */
  datatype Part = Part(key: StatKey, delta: int)

  /** `label: part, part, ...`; the label is the obstacle title. */
  datatype EventEntry = EventEntry(title: string, parts: seq<Part>)

  function PartsOf(keys: seq<StatKey>, applied: Record<int>): (ps: seq<Part>)
    ensures forall p :: p in ps ==> p.key in keys && p.delta == applied.Get(p.key) && p.delta != 0
    ensures forall k :: k in keys && applied.Get(k) != 0 ==> Part(k, applied.Get(k)) in ps
  {
    if keys == [] then []
    else
      (if applied.Get(keys[0]) != 0 then [Part(keys[0], applied.Get(keys[0]))] else [])
      + PartsOf(keys[1..], applied)
  }

  /** The parts of an entry: the stats whose recorded change is non-zero, in key order. */
  function EventParts(applied: Record<int>): (ps: seq<Part>)
    ensures ps == [] <==> applied == Record(0, 0, 0)
    ensures forall p :: p in ps ==> p.delta == applied.Get(p.key) && p.delta != 0
  {
    var ps := PartsOf(Keys, applied);
    assert applied != Record(0, 0, 0) ==>
      applied.Get(Health) != 0 || applied.Get(Stamina) != 0 || applied.Get(Money) != 0;
    ps
  }

  const MaxLogEntries := 6

  /** `[entry, ...log].slice(0, 6)`: newest first, at most six kept. */
  function PushEvent(log: seq<EventEntry>, e: EventEntry): (r: seq<EventEntry>)
    ensures |r| == Min(MaxLogEntries, |log| + 1)
    ensures r[0] == e
    ensures r[1..] == log[..Min(MaxLogEntries - 1, |log|)]
  {
    var all := [e] + log;
    assert all[1..] == log;
    all[..Min(MaxLogEntries, |all|)]
  }

  // ---------------------------------------------------------------------
  // Obstacles and the map
  // ---------------------------------------------------------------------

  /** `revealed.some(r => r.id === id)`. */
  predicate RevealedId(revealed: seq<HiddenCondition>, id: string) {
    exists j :: 0 <= j < |revealed| && revealed[j].id == id
  }

  /** `availableObstacles`: the obstacles whose id is not yet revealed, in landmark order. */
  function Available(obstacles: seq<HiddenCondition>, revealed: seq<HiddenCondition>)
    : (r: seq<HiddenCondition>)
    ensures forall o :: o in r <==> o in obstacles && !RevealedId(revealed, o.id)
    ensures |r| <= |obstacles|
  {
    if obstacles == [] then []
    else
      (if RevealedId(revealed, obstacles[0].id) then [] else [obstacles[0]])
      + Available(obstacles[1..], revealed)
  }

  /** `r` is `s` with some elements left out, the rest in their order. */
  predicate IsSubsequence(r: seq<HiddenCondition>, s: seq<HiddenCondition>)
    decreases |s|
  {
    r == [] || (s != [] && ((r[0] == s[0] && IsSubsequence(r[1..], s[1..])) || IsSubsequence(r, s[1..])))
  }

  /** The filter keeps the landmark's order, which the direction index relies on. */
  lemma {:induction false} AvailableKeepsOrder(obstacles: seq<HiddenCondition>, revealed: seq<HiddenCondition>)
    ensures IsSubsequence(Available(obstacles, revealed), obstacles)
  {
    if obstacles != [] {
      var rest := Available(obstacles[1..], revealed);
      AvailableKeepsOrder(obstacles[1..], revealed);
      var r := Available(obstacles, revealed);
      if !RevealedId(revealed, obstacles[0].id) {
        assert r == [obstacles[0]] + rest;
        assert r[0] == obstacles[0] && r[1..] == rest;
      } else {
        assert r == rest;
      }
    }
  }

  function DirectionIndex(d: NavDirection): nat {
    match d
    case Left => 0
    case Straight => 1
    case Right => 2
  }

  /**
   * `getObstacleForDirection`: the available obstacle at the direction's
   * index modulo how many are available, none when none is.
   */
  function ObstacleForDirection(available: seq<HiddenCondition>, d: NavDirection)
    : (r: Option<HiddenCondition>)
    ensures r.None? <==> available == []
    ensures r.Some? ==> r.value in available
  {
    if |available| == 0 then None
    else Some(available[DirectionIndex(d) % |available|])
  }

  /** A fork of the walking map. */
  datatype MapNode = MapNode(id: int, left: Option<int>, straight: Option<int>, right: Option<int>) {
    function Target(d: NavDirection): Option<int> {
      match d
      case Left => left
      case Straight => straight
      case Right => right
    }
  }

  const MapNodes: seq<MapNode> := [
    MapNode(0, Some(1), Some(2), Some(3)),
    MapNode(1, Some(4), Some(2), Some(0)),
    MapNode(2, Some(1), Some(5), Some(3)),
    MapNode(3, Some(2), Some(5), Some(6)),
    MapNode(4, Some(1), Some(2), Some(7)),
    MapNode(5, Some(2), Some(8), Some(3)),
    MapNode(6, Some(3), Some(8), Some(6)),
    MapNode(7, Some(4), Some(5), Some(7)),
    MapNode(8, Some(5), Some(8), Some(6))
  ]

  predicate ValidNode(n: int) {
    0 <= n < |MapNodes|
  }

  /** Each node sits at its own index and every branch leads to a node. */
  lemma MapNodesWellFormed()
    ensures |MapNodes| == 9
    ensures forall i :: 0 <= i < |MapNodes| ==> MapNodes[i].id == i
    ensures forall i, d :: 0 <= i < |MapNodes| ==>
      MapNodes[i].Target(d).Some? && ValidNode(MapNodes[i].Target(d).value)
  {
  }

  /** The node after moving: the branch target when there is one, else the same node. */
  function NextNode(node: int, d: NavDirection): (r: int)
    ensures ValidNode(node) ==> ValidNode(r)
  {
    MapNodesWellFormed();
    if ValidNode(node) && MapNodes[node].Target(d).Some? then MapNodes[node].Target(d).value
    else node
  }

  // ---------------------------------------------------------------------
  // Game state and handlers
  // ---------------------------------------------------------------------

  datatype Game = Game(
    step: Step,
    landmark: Option<Landmark>,
    persona: Option<Persona>,
    planningAnswer: Option<PlanningAnswer>,
    stats: Record<real>,
    revealed: seq<HiddenCondition>,
    lastDirection: Option<NavDirection>,
    currentNode: int,
    eventLog: seq<EventEntry>)

  const InitialGame := Game(LandmarkStep, None, None, None, Record(0.0, 0.0, 0.0), [], None, 0, [])

  /** `obstacles`: the selected landmark's conditions, none without one. */
  function Obstacles(g: Game): seq<HiddenCondition> {
    if g.landmark.Some? then g.landmark.value.hiddenConditions else []
  }

  function AvailableNow(g: Game): seq<HiddenCondition> {
    Available(Obstacles(g), g.revealed)
  }

  /** Clicking a landmark card: a fresh walk at node 0; persona and stats are kept. */
  function ChooseLandmarkStep(g: Game, l: Landmark): Game {
    g.(landmark := Some(l), revealed := [], currentNode := 0, lastDirection := None,
       eventLog := [], step := PersonaStep)
  }

  /** `startPersona`: baselines as stats, no planning answer yet. */
  function StartPersonaStep(g: Game, p: Persona): Game {
    g.(persona := Some(p),
       stats := Record(p.initialHealth as real, p.initialStamina as real, p.initialMoney as real),
       planningAnswer := None, step := TraditionalStep)
  }

  function AnswerPlanningStep(g: Game, a: PlanningAnswer): Game {
    g.(planningAnswer := Some(a), step := NavigateStep)
  }

  function ShowFullMapStep(g: Game): Game {
    g.(step := RevealStep)
  }

  /**
   * `applyImpact`. Without a persona nothing changes. Otherwise every stat
   * takes its clamped new value, and an entry is pushed onto the event log
   * only when some recorded change is non-zero.
   */
  function ApplyImpactStep(g: Game, title: string, impacts: Record<int>, m: Multiplier): (r: Game)
    ensures g.persona.None? ==> r == g
    ensures g.persona.Some? ==>
      && r.stats == UpdatedStats(g.stats, impacts, m)
      && (forall k :: 0.0 <= r.stats.Get(k) <= 100.0)
      && (EventParts(AppliedDeltas(g.stats, impacts, m)) == [] ==> r.eventLog == g.eventLog)
      && (EventParts(AppliedDeltas(g.stats, impacts, m)) != [] ==>
            r.eventLog == PushEvent(g.eventLog,
              EventEntry(title, EventParts(AppliedDeltas(g.stats, impacts, m)))))
    ensures r.step == g.step && r.landmark == g.landmark && r.persona == g.persona
    ensures r.revealed == g.revealed && r.currentNode == g.currentNode
    ensures r.planningAnswer == g.planningAnswer && r.lastDirection == g.lastDirection
    ensures |r.eventLog| <= Max(|g.eventLog|, MaxLogEntries)
  {
    if g.persona.None? then g
    else
      var parts := EventParts(AppliedDeltas(g.stats, impacts, m));
      g.(stats := UpdatedStats(g.stats, impacts, m),
         eventLog := if |parts| > 0 then PushEvent(g.eventLog, EventEntry(title, parts)) else g.eventLog)
  }

  function BaseImpacts(o: HiddenCondition): Record<int> {
    Record(o.healthImpact, o.staminaImpact, o.moneyImpact)
  }

  /** The persona key of the multiplier lookup, `''` without a persona. */
  function PersonaKey(g: Game): string {
    if g.persona.Some? then g.persona.value.id else ""
  }

  /**
   * `handleNavigate`. With no obstacle left nothing changes. Otherwise the
   * direction's obstacle is applied and appended to the revealed list, the
   * direction is remembered and the walker moves along the branch.
   */
  function Navigate(g: Game, d: NavDirection): (r: Game)
    ensures AvailableNow(g) == [] ==> r == g
    ensures AvailableNow(g) != [] ==>
      var o := ObstacleForDirection(AvailableNow(g), d).value;
      && o in Obstacles(g) && !RevealedId(g.revealed, o.id)
      && r.revealed == g.revealed + [o]
      && r.lastDirection == Some(d)
      && r.currentNode == NextNode(g.currentNode, d)
      && r.stats == ApplyImpactStep(g, o.title, BaseImpacts(o), o.MultiplierFor(PersonaKey(g))).stats
      && r.eventLog == ApplyImpactStep(g, o.title, BaseImpacts(o), o.MultiplierFor(PersonaKey(g))).eventLog
    ensures r.step == g.step && r.landmark == g.landmark && r.persona == g.persona
    ensures r.planningAnswer == g.planningAnswer
  {
    match ObstacleForDirection(AvailableNow(g), d)
    case None => g
    case Some(o) =>
      var g1 := ApplyImpactStep(g, o.title, BaseImpacts(o), o.MultiplierFor(PersonaKey(g)));
      g1.(revealed := g1.revealed + [o], lastDirection := Some(d),
          currentNode := NextNode(g.currentNode, d))
  }

  // ---------------------------------------------------------------------
  // Properties
  // ---------------------------------------------------------------------

  /** Nothing revealed: every obstacle is available. */
  lemma {:induction false} AvailableWhenNoneRevealed(obstacles: seq<HiddenCondition>)
    ensures Available(obstacles, []) == obstacles
  {
    if obstacles != [] {
      AvailableWhenNoneRevealed(obstacles[1..]);
    }
  }

  /** Revealing an id no obstacle has leaves the available list as it was. */
  lemma {:induction false} AvailableIgnoresForeignId(obstacles: seq<HiddenCondition>,
      revealed: seq<HiddenCondition>, o: HiddenCondition)
    requires forall x :: x in obstacles ==> x.id != o.id
    ensures Available(obstacles, revealed + [o]) == Available(obstacles, revealed)
  {
    if obstacles != [] {
      assert RevealedId(revealed + [o], obstacles[0].id) == RevealedId(revealed, obstacles[0].id) by {
        if RevealedId(revealed, obstacles[0].id) {
          var j :| 0 <= j < |revealed| && revealed[j].id == obstacles[0].id;
          assert (revealed + [o])[j] == revealed[j];
        }
        if RevealedId(revealed + [o], obstacles[0].id) {
          var j :| 0 <= j < |revealed + [o]| && (revealed + [o])[j].id == obstacles[0].id;
          assert j < |revealed|;
          assert revealed[j] == (revealed + [o])[j];
        }
      }
      AvailableIgnoresForeignId(obstacles[1..], revealed, o);
    }
  }

  /** Revealing one available obstacle shortens the available list by exactly one. */
  lemma {:induction false} AvailableShrinksByOne(obstacles: seq<HiddenCondition>,
      revealed: seq<HiddenCondition>, o: HiddenCondition)
    requires UniqueIds(obstacles)
    requires o in Available(obstacles, revealed)
    ensures |Available(obstacles, revealed + [o])| == |Available(obstacles, revealed)| - 1
  {
    var h := obstacles[0];
    var tail := obstacles[1..];
    assert UniqueIds(tail) by {
      forall i, j | 0 <= i < j < |tail| ensures tail[i].id != tail[j].id {
        assert tail[i] == obstacles[i + 1] && tail[j] == obstacles[j + 1];
      }
    }
    assert (revealed + [o])[|revealed|] == o;
    if h.id == o.id {
      assert !RevealedId(revealed, h.id);
      assert RevealedId(revealed + [o], h.id);
      assert forall x :: x in tail ==> x.id != o.id by {
        forall x | x in tail ensures x.id != o.id {
          var j :| 0 <= j < |tail| && tail[j] == x;
          assert obstacles[j + 1] == x;
        }
      }
      AvailableIgnoresForeignId(tail, revealed, o);
    } else {
      assert RevealedId(revealed + [o], h.id) == RevealedId(revealed, h.id) by {
        if RevealedId(revealed, h.id) {
          var j :| 0 <= j < |revealed| && revealed[j].id == h.id;
          assert (revealed + [o])[j] == revealed[j];
        }
      }
      assert o in tail;
      AvailableShrinksByOne(tail, revealed, o);
    }
  }

  /**
   * What every handler keeps: a valid node, at most six log entries,
   * distinct revealed ids drawn from the landmark's obstacles, and, when
   * the obstacle ids are distinct, available plus revealed equal to all.
   */
  predicate Consistent(g: Game) {
    && ValidNode(g.currentNode)
    && |g.eventLog| <= MaxLogEntries
    && UniqueIds(g.revealed)
    && (forall j :: 0 <= j < |g.revealed| ==> g.revealed[j] in Obstacles(g))
    && (UniqueIds(Obstacles(g)) ==> |AvailableNow(g)| + |g.revealed| == |Obstacles(g)|)
  }

  lemma InitialGameConsistent()
    ensures Consistent(InitialGame)
  {
  }

  /** One navigation reveals exactly one obstacle while any is left, and never a duplicate. */
  lemma {:induction false} NavigateKeepsConsistent(g: Game, d: NavDirection)
    requires Consistent(g)
    ensures Consistent(Navigate(g, d))
    ensures AvailableNow(g) != [] ==> |Navigate(g, d).revealed| == |g.revealed| + 1
  {
    var r := Navigate(g, d);
    if AvailableNow(g) != [] {
      var o := ObstacleForDirection(AvailableNow(g), d).value;
      assert r.revealed == g.revealed + [o];
      assert UniqueIds(r.revealed) by {
        forall i, j | 0 <= i < j < |r.revealed| ensures r.revealed[i].id != r.revealed[j].id {
          if j == |g.revealed| {
            assert r.revealed[i] == g.revealed[i];
          } else {
            assert r.revealed[i] == g.revealed[i] && r.revealed[j] == g.revealed[j];
          }
        }
      }
      if UniqueIds(Obstacles(g)) {
        AvailableShrinksByOne(Obstacles(g), g.revealed, o);
      }
    }
  }

  /** Choosing a landmark starts a consistent walk. */
  lemma ChooseLandmarkKeepsConsistent(g: Game, l: Landmark)
    requires Consistent(g)
    ensures Consistent(ChooseLandmarkStep(g, l))
  {
    AvailableWhenNoneRevealed(l.hiddenConditions);
  }

  /** The other handlers keep consistency too. */
  lemma OtherHandlersKeepConsistent(g: Game, p: Persona, a: PlanningAnswer,
      title: string, impacts: Record<int>, m: Multiplier)
    requires Consistent(g)
    ensures Consistent(StartPersonaStep(g, p))
    ensures Consistent(AnswerPlanningStep(g, a))
    ensures Consistent(ShowFullMapStep(g))
    ensures Consistent(ApplyImpactStep(g, title, impacts, m))
  {
  }

  /** `n` navigations in the given directions. */
  function Navigations(g: Game, ds: seq<NavDirection>): Game
    decreases |ds|
  {
    if ds == [] then g else Navigate(Navigations(g, ds[..|ds| - 1]), ds[|ds| - 1])
  }

  /**
   * From a fresh walk over obstacles with distinct ids, `k` navigations
   * reveal min(k, N) obstacles; after N every obstacle has been revealed and
   * further navigations change nothing.
   */
  lemma {:induction false} NavigationsExhaustObstacles(g: Game, ds: seq<NavDirection>)
    requires Consistent(g) && g.revealed == [] && UniqueIds(Obstacles(g))
    ensures Consistent(Navigations(g, ds))
    ensures |Navigations(g, ds).revealed| == Min(|ds|, |Obstacles(g)|)
    ensures Navigations(g, ds).landmark == g.landmark
    ensures |ds| >= |Obstacles(g)| ==>
      && AvailableNow(Navigations(g, ds)) == []
      && (forall o :: o in Obstacles(g) ==> RevealedId(Navigations(g, ds).revealed, o.id))
      && (forall d :: Navigate(Navigations(g, ds), d) == Navigations(g, ds))
  {
    if ds != [] {
      var prefix := ds[..|ds| - 1];
      NavigationsExhaustObstacles(g, prefix);
      NavigateKeepsConsistent(Navigations(g, prefix), ds[|ds| - 1]);
    }
    var r := Navigations(g, ds);
    if |ds| >= |Obstacles(g)| {
      assert |AvailableNow(r)| == 0;
    }
  }

  /** For the catalog: every landmark's walk reveals each obstacle once, in N steps. */
  lemma CatalogWalksExhaust(g: Game, ds: seq<NavDirection>)
    requires Consistent(g) && g.revealed == [] && g.landmark.Some? && g.landmark.value in Landmarks.All
    ensures |Navigations(g, ds).revealed| == Min(|ds|, |g.landmark.value.hiddenConditions|)
  {
    Landmarks.EachLandmarkHasUniqueIds();
    NavigationsExhaustObstacles(g, ds);
  }

  /** The tourist's stats meeting `rp-distance`: a budget of 600 is clamped to 100. */
  lemma TouristMeetsLongWalk()
    ensures var prev := Record(95.0, 85.0, 600.0);
      var impacts := Record(-5, -25, 0);
      && UpdatedStats(prev, impacts, NoMultiplier) == Record(90.0, 60.0, 100.0)
      && EventParts(AppliedDeltas(prev, impacts, NoMultiplier))
         == [Part(Health, -5), Part(Stamina, -25), Part(Money, -500)]
  {
    var prev := Record(95.0, 85.0, 600.0);
    var impacts := Record(-5, -25, 0);
    assert AppliedDeltas(prev, impacts, NoMultiplier) == Record(-5, -25, -500);
  }

  /** On a fresh walk, going left meets the landmark's first obstacle. */
  lemma FreshWalkStartsLeftAtFirst(g: Game)
    requires g.revealed == [] && |Obstacles(g)| > 0
    ensures ObstacleForDirection(AvailableNow(g), Left) == Some(Obstacles(g)[0])
  {
    LeftMeetsFirstOfAll(Obstacles(g));
  }

  /** With nothing revealed, going left meets the first of the obstacles. */
  lemma LeftMeetsFirstOfAll(obs: seq<HiddenCondition>)
    requires |obs| > 0
    ensures ObstacleForDirection(Available(obs, []), Left) == Some(obs[0])
  {
    AvailableWhenNoneRevealed(obs);
    assert 0 % |obs| == 0;
  }

  /** The first move of a walk whose next obstacle is `rp-distance`, for the tourist. */
  lemma {:induction false} TouristFirstMove(g: Game)
    requires g.persona == Some(Personas.Tourist) && g.stats == Record(95.0, 85.0, 600.0)
    requires g.revealed == [] && g.eventLog == []
    requires ObstacleForDirection(AvailableNow(g), Left) == Some(Landmarks.RpDistance)
    ensures Navigate(g, Left).revealed == [Landmarks.RpDistance]
    ensures Navigate(g, Left).stats.money == 100.0
    ensures Navigate(g, Left).eventLog[0].parts == [Part(Health, -5), Part(Stamina, -25), Part(Money, -500)]
  {
    assert "tourist" !in Landmarks.RpDistance.personaMultipliers;
    assert Landmarks.RpDistance.MultiplierFor(PersonaKey(g)) == NoMultiplier;
    assert BaseImpacts(Landmarks.RpDistance) == Record(-5, -25, 0);
    TouristMeetsLongWalk();
  }

  /**
   * The tourist at Rizal Park walking left at once: the walk's first obstacle
   * carries no money impact, yet the clamp cuts the budget of 600 to 100
   * and records a change of -500.
   */
  lemma {:induction false} MoneyIsClampedToOneHundred()
    ensures var g := StartPersonaStep(ChooseLandmarkStep(InitialGame, Landmarks.RizalPark),
                                      Personas.Tourist);
      var r := Navigate(g, Left);
      && r.revealed == [Landmarks.RpDistance]
      && r.stats.money == 100.0
      && r.eventLog[0].parts == [Part(Health, -5), Part(Stamina, -25), Part(Money, -500)]
  {
    var conds := Landmarks.RizalPark.hiddenConditions;
    var g := StartPersonaStep(ChooseLandmarkStep(InitialGame, Landmarks.RizalPark), Personas.Tourist);
    assert g.persona == Some(Personas.Tourist);
    assert g.stats == Record(95.0, 85.0, 600.0);
    assert g.revealed == [] && g.eventLog == [];
    assert Obstacles(g) == conds && |conds| == 6 && conds[0] == Landmarks.RpDistance;
    FreshWalkStartsLeftAtFirst(g);
    TouristFirstMove(g);
  }

  /** The game's state cells. */
  class AdvocacyGame {
    var step: Step
    var selectedLandmark: Option<Landmark>
    var selectedPersona: Option<Persona>
    var planningAnswer: Option<PlanningAnswer>
    var stats: Record<real>
    var revealed: seq<HiddenCondition>
    var lastDirection: Option<NavDirection>
    var currentNode: int
    var eventLog: seq<EventEntry>

    function Model(): Game
      reads this
    {
      Game(step, selectedLandmark, selectedPersona, planningAnswer, stats, revealed,
           lastDirection, currentNode, eventLog)
    }

    constructor ()
      ensures Model() == InitialGame
    {
      step := LandmarkStep;
      selectedLandmark := None;
      selectedPersona := None;
      planningAnswer := None;
      stats := Record(0.0, 0.0, 0.0);
      revealed := [];
      lastDirection := None;
      currentNode := 0;
      eventLog := [];
    }

    method ChooseLandmark(landmark: Landmark)
      modifies this
      ensures Model() == ChooseLandmarkStep(old(Model()), landmark)
    {
      selectedLandmark := Some(landmark);
      revealed := [];
      currentNode := 0;
      lastDirection := None;
      eventLog := [];
      step := PersonaStep;
    }

    method StartPersona(persona: Persona)
      modifies this
      ensures Model() == StartPersonaStep(old(Model()), persona)
    {
      selectedPersona := Some(persona);
      stats := Record(persona.initialHealth as real, persona.initialStamina as real,
                      persona.initialMoney as real);
      planningAnswer := None;
      step := TraditionalStep;
    }

    method HandlePlanningAnswer(answer: PlanningAnswer)
      modifies this
      ensures Model() == AnswerPlanningStep(old(Model()), answer)
    {
      planningAnswer := Some(answer);
      step := NavigateStep;
    }

    /** The "full updated map" button, shown once every obstacle is revealed. */
    method ShowFullMap()
      modifies this
      ensures Model() == ShowFullMapStep(old(Model()))
    {
      step := RevealStep;
    }

    method ApplyImpact(title: string, impacts: Record<int>, personaMultiplier: Multiplier)
      modifies this
      ensures Model() == ApplyImpactStep(old(Model()), title, impacts, personaMultiplier)
    {
      if selectedPersona.None? {
        return;
      }
      var updated, applied := ComputeUpdate(stats, impacts, personaMultiplier);
      stats := updated;
      var parts := EventParts(applied);
      if |parts| > 0 {
        eventLog := PushEvent(eventLog, EventEntry(title, parts));
      }
    }

    method HandleNavigate(direction: NavDirection)
      modifies this
      ensures Model() == Navigate(old(Model()), direction)
    {
      var obstacles := if selectedLandmark.Some? then selectedLandmark.value.hiddenConditions else [];
      var obstacle := ObstacleForDirection(Available(obstacles, revealed), direction);
      if obstacle.None? {
        return;
      }
      var o := obstacle.value;
      var key := if selectedPersona.Some? then selectedPersona.value.id else "";
      ApplyImpact(o.title, BaseImpacts(o), o.MultiplierFor(key));
      revealed := revealed + [o];
      lastDirection := Some(direction);
      if 0 <= currentNode < |MapNodes| && MapNodes[currentNode].Target(direction).Some? {
        currentNode := MapNodes[currentNode].Target(direction).value;
      }
    }
  }
}
