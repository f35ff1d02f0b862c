# Landmark accessibility exhibit — a verified model of its simulation engine

The exhibit lets a visitor pick one of nine Philippine landmarks and one of
four visitor personas, then walks them through the landmark's *hidden
conditions* — stairs, heat, crowds, costs — that an ordinary online map does
not show. Each condition lowers health, stamina and money, scaled by
per-persona multipliers, and the final screen grades how hard the visit was.

This Dafny project models the deterministic engine behind that experience:

- **`ExhibitTypes`** (`exhibit_types.dfy`): the records — hidden condition,
  multiplier record, landmark, persona, stats, screens.
- **`JsMath`** (`js_math.dfy`): `Math.round`, `Math.max`, `Math.min` on exact
  numbers (`Math.round(x)` is `Floor(x + 1/2)`, so -6.5 rounds to -6).
- **`Personas`** and **`Landmarks`** (`personas.dfy`, `landmarks.dfy`): the
  two catalogs as constants, with catalog facts proved by computation.
- **`ExhibitHook`** (`exhibit_hook.dfy`): the session state machine of the
  guided exhibit. `calculateImpact` is a function. The six state cells are
  the fields of class `ExhibitState`, and each of its methods is proved to
  move the cells exactly as a pure transition on the value `Session` does.
  The properties are proved about those transitions.
- **`RevealScreen`**, **`OutcomeScreen`**, **`IndexPage`**: what the screens
  derive from a session (progress, shown impacts, the single action button,
  status line, losses and severity tier) and the page's routing. `IndexPage`
  defines the commands each screen offers and proves, by an invariant
  `Reachable`, what every session reachable through those buttons satisfies.
- **`AdvocacyExhibit`** (`advocacy_exhibit.dfy`): the compact fork-navigation
  game. Obstacles are chosen by direction from the not-yet-revealed ones. The
  stat update is a loop over the three stats, proved against pure
  functions. The event log keeps at most six entries, and the walk runs on a
  fixed nine-node map. The game's state cells are the fields of class
  `AdvocacyGame`.

Multipliers are exact `real`s (they all have one decimal). In the guided
exhibit stats are integers, because impacts are rounded before they are
applied. In the navigation game stats are `real`, because that code never
rounds a stat.

Behaviour of the code worth knowing:

- `Math.round` rounds halves toward +∞, so `rp-distance` for the elderly
  persona computes `round(-6.5) = -6` and `round(-37.5) = -37`, and 70/50
  becomes 64/13. See `ExhibitHook.ElderlyAtRizalParkFirstReveal`.
- The reveal log stores the rounded persona-adjusted impacts. It does not
  store the clamp-adjusted change. So starting stats plus the logged
  deltas give the final stats only when no clamp fires
  (`ExhibitHook.LoggedDeltasAddUpWithoutClamping`,
  `ExhibitHook.ClampedRevealBreaksTheSum`).
- `selectPersona` does not clear the reveal log or index. Through the page's
  buttons this cannot be observed, because the planning screen is only
  reached with an empty log (`IndexPage.Reachable`).
- The hook does not guard `finishVisit`. The guard is the reveal screen's
  button choice (`IndexPage.OutcomeAfterEveryCondition`).
- The navigation game clamps money to [0,100] like health and stamina. Every
  persona's budget (300–600) therefore falls to at most 100 at its first
  obstacle (`AdvocacyExhibit.MoneyIsClampedToOneHundred`).
- The condition-type union in `src/types/exhibit.ts:12` is stale. The model
  uses the seventeen types the data uses.

`label` is a Dafny keyword, so a condition's `label` is the field `title`.

## Model

| member | source | states |
|---|---|---|
| ExhibitTypes.HiddenCondition.MultiplierFor | src/hooks/useExhibitState.ts:22 | a persona without an entry gets the empty multiplier record; otherwise its own entry |
| JsMath.Round | src/hooks/useExhibitState.ts:25-27 | the result is the integer within half of x, halves going up |
| Personas.Ids | src/data/personas.ts:4-48 | the ids are exactly those of the four catalog personas |
| Personas.FourDistinctPersonas | src/data/personas.ts:4-48 | four personas, pairwise distinct ids, namely elderly, parent, limited-stamina, tourist |
| Personas.BaselinesInRange | src/data/personas.ts:10-45 | every baseline health and stamina is in [0,100] and every budget is positive |
| Landmarks.RizalParkFacts | src/data/landmarks.ts:5-95 | Rizal Park's conditions have non-positive impacts, multipliers in [1.2,2.0] keyed by known personas, distinct ids, all prefixed `rp-` |
| Landmarks.IntramurosFacts | src/data/landmarks.ts:96-173 | the same facts for Intramuros, prefix `int-` |
| Landmarks.ViganHeritageFacts | src/data/landmarks.ts:174-263 | the same facts for Vigan, prefix `vh-` |
| Landmarks.ChocolateHillsFacts | src/data/landmarks.ts:266-344 | the same facts for the Chocolate Hills, prefix `ch-` |
| Landmarks.MagellansCrossFacts | src/data/landmarks.ts:345-434 | the same facts for Magellan's Cross, prefix `mc-` |
| Landmarks.TheRuinsFacts | src/data/landmarks.ts:435-513 | the same facts for The Ruins, prefix `tr-` |
| Landmarks.PhilippineEagleCenterFacts | src/data/landmarks.ts:516-605 | the same facts for the Philippine Eagle Center, prefix `pec-` |
| Landmarks.TinuyAnFallsFacts | src/data/landmarks.ts:606-710 | the same facts for Tinuy-an Falls, prefix `tf-` |
| Landmarks.LakeSebuFacts | src/data/landmarks.ts:711-800 | the same facts for Lake Sebu, prefix `ls-` |
| Landmarks.FactsOf | src/data/landmarks.ts:5-800 | the facts above for the landmark at any catalog index |
| Landmarks.NineLandmarksThreePerRegion | src/data/landmarks.ts:5-801 | nine landmarks; the first three in Luzon, the next three in the Visayas, the last three in Mindanao |
| Landmarks.FiveToSevenConditions | src/data/landmarks.ts:5-801 | every landmark has between five and seven hidden conditions |
| Landmarks.CatalogConditions | src/data/landmarks.ts:14-799 | every catalog condition satisfies the catalog facts |
| Landmarks.InCatalog | src/data/landmarks.ts:14-799 | the catalog facts for one given condition of one given landmark |
| Landmarks.BaseImpactsNonPositive | src/data/landmarks.ts:14-799 | every base health, stamina and money impact is at most 0 |
| Landmarks.MultipliersBetweenOnePointTwoAndTwo | src/data/landmarks.ts:23-797 | every multiplier value present lies in [1.2, 2.0] |
| Landmarks.MultiplierKeysKnown | src/data/landmarks.ts:23-797 | multiplier keys are only elderly, parent and limited-stamina; tourist is never a key |
| Landmarks.KeyedPersonasExist | src/data/personas.ts:5-27 | every key used is the id of a catalog persona |
| Landmarks.PrefixesDiffer | src/data/landmarks.ts:16-787 | the nine id prefixes are pairwise different already in their first two characters |
| Landmarks.SamePrefixSameLandmark | src/data/landmarks.ts:16-787 | an id carries the prefix of at most one landmark |
| Landmarks.ConditionIdsUnique | src/data/landmarks.ts:16-787 | two catalog conditions with the same id are the same condition of the same landmark |
| Landmarks.EachLandmarkHasUniqueIds | src/data/landmarks.ts:16-787 | within each landmark the condition ids are distinct |
| Landmarks.TypesBeyondTheDeclaredUnion | src/data/landmarks.ts:42-57 | Rizal Park uses `crowd` and `vendors`, types missing from the declared union of six |
| ExhibitHook.CalculateImpact | src/hooks/useExhibitState.ts:21-29 | without an entry for the persona the base impacts come back unchanged; an axis whose multiplier is absent or zero keeps its base impact |
| ExhibitHook.AxisNeverMilder | src/hooks/useExhibitState.ts:25-27 | a loss scaled on one axis by an absent, zero or in-range multiplier and rounded is no milder than the loss |
| ExhibitHook.ImpactsNeverMilder | src/hooks/useExhibitState.ts:21-29 | with losses only and multipliers of at least 1.2, each adjusted impact is at most the base impact |
| ExhibitHook.CatalogImpactsNeverMilder | src/hooks/useExhibitState.ts:21-29 | for every catalog condition and every persona, adjusted impacts are never milder than the base |
| ExhibitHook.TouristGetsBaseImpacts | src/hooks/useExhibitState.ts:22-28 | the tourist gets exactly the base impacts of every catalog condition |
| ExhibitHook.OnlyThePersonaIdMatters | src/hooks/useExhibitState.ts:21-28 | personas with the same id get the same impacts; vulnerabilities, name and role are never read |
| ExhibitHook.ApplyToStats | src/hooks/useExhibitState.ts:63-67 | health and stamina end in [0,100] and money at least 0, whatever the previous stats; when no bound is crossed each stat moves by exactly the impact; a stat pushed below 0 becomes 0, and health or stamina pushed above 100 becomes 100 |
| ExhibitHook.RevealStep | src/hooks/useExhibitState.ts:52-71 | no change without both selections or once exhausted; otherwise exactly one entry appended for the condition at the index, carrying the adjusted impacts, the index up by one, the stats those impacts clamped onto the old ones, screen and selections unchanged |
| ExhibitHook.GoBackStep | src/hooks/useExhibitState.ts:86-102 | landmark goes to welcome; persona goes to landmark and clears the landmark; planning goes to persona and clears the persona; any other screen is unchanged |
| ExhibitHook.ResetIsIdempotent | src/hooks/useExhibitState.ts:77-84 | reset gives welcome, no selections, 100/100/500, an empty log and index 0, and resetting twice is resetting once |
| ExhibitHook.EveryTransitionKeepsLogLength | src/hooks/useExhibitState.ts:31-102 | every transition keeps the log length equal to the reveal index |
| ExhibitHook.RevealExtendsPrefix | src/hooks/useExhibitState.ts:55-69 | a reveal with a condition left extends the logged conditions by exactly the next one |
| ExhibitHook.RevealsUpToCount | src/hooks/useExhibitState.ts:55-69 | after a visit starts, k reveals with k at most N leave exactly the first k conditions logged, in order, index k |
| ExhibitHook.RevealsPastCount | src/hooks/useExhibitState.ts:53-57 | reveals beyond the condition count leave the session as after the N-th |
| ExhibitHook.RevealsApplyEachConditionOnce | src/hooks/useExhibitState.ts:46-71 | after a visit starts, k reveals reveal min(k, N) conditions, logged once each in landmark order; reveals past N change nothing |
| ExhibitHook.NoDoubleApplication | src/hooks/useExhibitState.ts:53-57 | once all N conditions are revealed, another reveal changes nothing |
| ExhibitHook.UnclampedRevealAdds | src/hooks/useExhibitState.ts:61-67 | a reveal whose clamp does not fire adds exactly the logged entry's impacts to the stats and keeps the earlier log |
| ExhibitHook.LoggedDeltasAddUpWithoutClamping | src/hooks/useExhibitState.ts:61-67 | when no clamp fires, the starting stats plus the sum of the logged impacts equal the current stats |
| ExhibitHook.ElderlyAtRizalParkFirstReveal | src/hooks/useExhibitState.ts:21-67 | the elderly persona meeting `rp-distance` logs -6/-37/0 and goes from 70/50/300 to 64/13/300 |
| ExhibitHook.ClampedRevealBreaksTheSum | src/hooks/useExhibitState.ts:61-67 | on the Chocolate Hills stairs the elderly persona logs stamina -54, stamina stops at 0, and start plus log is not the result |
| ExhibitHook.ExhibitState.constructor | src/hooks/useExhibitState.ts:14-19 | the cells start as the initial session |
| ExhibitHook.ExhibitState.SetCurrentScreen | src/hooks/useExhibitState.ts:14 | only the screen changes |
| ExhibitHook.ExhibitState.SelectLandmark | src/hooks/useExhibitState.ts:31-34 | the landmark is selected and the persona screen shows |
| ExhibitHook.ExhibitState.SelectPersona | src/hooks/useExhibitState.ts:36-44 | the persona is selected, the stats become its baselines, the planning screen shows |
| ExhibitHook.ExhibitState.StartVisit | src/hooks/useExhibitState.ts:46-50 | the reveal screen shows with an empty log and index 0 |
| ExhibitHook.ExhibitState.RevealNextCondition | src/hooks/useExhibitState.ts:52-71 | the cells move exactly as `RevealStep` |
| ExhibitHook.ExhibitState.FinishVisit | src/hooks/useExhibitState.ts:73-75 | only the screen changes, to outcome, with no check on progress |
| ExhibitHook.ExhibitState.ResetExhibit | src/hooks/useExhibitState.ts:77-84 | the cells return to the initial session |
| ExhibitHook.ExhibitState.GoBack | src/hooks/useExhibitState.ts:86-102 | the cells move exactly as `GoBackStep` |
| OutcomeScreen.LossesOf | src/screens/OutcomeScreen.tsx:30-32 | each loss is the initial stat minus the final one |
| OutcomeScreen.GetOutcomeLevel | src/screens/OutcomeScreen.tsx:34-39 | severe iff health plus stamina lost exceeds 60, moderate iff it is in 31..60, mild iff at most 30 |
| OutcomeScreen.OutcomeLevelMonotone | src/screens/OutcomeScreen.tsx:34-39 | more health plus stamina lost never gives a milder tier |
| OutcomeScreen.OutcomeBoundaries | src/screens/OutcomeScreen.tsx:34-39 | 30 is mild, 31 and 60 are moderate, 61 is severe |
| OutcomeScreen.SpendingDoesNotChangeTheTier | src/screens/OutcomeScreen.tsx:35 | two outcomes differing only in money have the same tier |
| OutcomeScreen.ShowLoss | src/screens/OutcomeScreen.tsx:85-94 | `-N` exactly when N > 0, otherwise `0` |
| OutcomeScreen.ShowCost | src/screens/OutcomeScreen.tsx:103 | `₱N` when N > 0, otherwise `₱0` |
| RevealScreen.Progress | src/screens/RevealScreen.tsx:48-58 | one segment per condition, filled iff its index is below the reveal index |
| RevealScreen.ProgressCountsReveals | src/screens/RevealScreen.tsx:48-58 | the bar has min(index, total) filled segments |
| RevealScreen.FindById | src/screens/RevealScreen.tsx:64 | none iff no entry has the id; otherwise the first entry with the id |
| RevealScreen.LatestChange | src/screens/RevealScreen.tsx:35 | nothing for an empty log, otherwise the last entry's impacts |
| RevealScreen.ShownImpact | src/screens/RevealScreen.tsx:64-71 | a card shows the impacts of the first log entry with its id, or zeros when none has it |
| RevealScreen.ActionButton | src/screens/RevealScreen.tsx:79-96 | "View Final Results" iff every condition is revealed, else "Continue Walking" |
| RevealScreen.StatusMessages | src/screens/RevealScreen.tsx:140-145 | "starting" shows iff the index is 0, "encountered" iff it is strictly between 0 and the total, "complete" iff all are revealed, and nothing else shows |
| RevealScreen.ExactlyOneStatus | src/screens/RevealScreen.tsx:140-145 | with at least one condition exactly one status shows, starting at 0, "encountered" strictly between, and completion exactly when the button offers the results |
| RevealScreen.EmptyLandmarkShowsTwoStatuses | src/screens/RevealScreen.tsx:140-145 | with no conditions both the starting and the completion message show |
| RevealScreen.CardsAgreeWithLog | src/screens/RevealScreen.tsx:62-74 | when the log replays the first conditions and ids are distinct, a card is uncovered iff its condition is logged, and shows its own entry's impacts, or zeros when covered |
| IndexPage.RenderScreen | src/pages/Index.tsx:30-97 | nothing is drawn exactly when a screen lacks its selections; the outcome's initial stats are the persona's baselines; landmark and persona screens list the catalogs |
| IndexPage.Offers | src/pages/Index.tsx:30-97 | a `null` screen offers nothing; back is offered only on the landmark, persona and planning screens; the reveal screen offers finish iff all are revealed and otherwise only continue |
| IndexPage.Step | src/pages/Index.tsx:30-97 | begin moves to the landmark screen; a landmark or persona pick records it and moves on, a persona pick setting its baselines; start clears the log and index on the reveal screen; continue keeps screen and selections; finish moves to the outcome; reset gives the initial session |
| IndexPage.InitialSessionReachable | src/hooks/useExhibitState.ts:14-19 | the initial session satisfies the page invariant |
| IndexPage.ContinueKeepsVisiting | src/hooks/useExhibitState.ts:52-71 | a reveal with a condition left keeps the log a prefix replay and keeps stats in range and no better than the baselines |
| IndexPage.StartBeginsVisiting | src/hooks/useExhibitState.ts:46-50 | starting from the planning screen gives a visit in progress |
| IndexPage.StepKeepsReachable | src/pages/Index.tsx:30-97 | every command a reachable session's screen offers leads to a reachable session |
| IndexPage.ReachableAlwaysRenders | src/pages/Index.tsx:45-93 | a reachable session never takes a `null` fallback |
| IndexPage.OutcomeAfterEveryCondition | src/screens/RevealScreen.tsx:79-96 | on a reachable outcome screen the log names every condition of the landmark once, in order, and nothing is left to reveal |
| IndexPage.OutcomeReportsLosses | src/screens/OutcomeScreen.tsx:30-39 | on a reachable outcome screen no loss is negative, and the tier is mild iff health plus stamina lost is at most 30 |
| IndexPage.RevealCardsShowTheLog | src/screens/RevealScreen.tsx:62-74 | on a reachable reveal screen each card is uncovered iff its condition is logged and shows that entry's impacts, or zeros |
| IndexPage.NoBackDuringOrAfterVisit | src/pages/Index.tsx:66-93 | the reveal and outcome screens offer no back |
| IndexPage.WelcomeOnlyStarts | src/pages/Index.tsx:31-34 | the welcome screen offers only the move to the landmark screen |
| IndexPage.Dispatch | src/pages/Index.tsx:30-97 | an offered command changes the cells exactly as its hook operation |
| AdvocacyExhibit.Clamp | src/pages/AdvocacyExhibit.tsx:27 | the result is in [0,100]; values inside are kept; below goes to 0 and above to 100 |
| AdvocacyExhibit.UpdatedStats | src/pages/AdvocacyExhibit.tsx:164-171 | every stat becomes the clamped previous value plus the scaled delta |
| AdvocacyExhibit.AppliedDeltas | src/pages/AdvocacyExhibit.tsx:164-171 | every recorded change is the rounded clamp-adjusted change of that stat |
| AdvocacyExhibit.ComputeUpdate | src/pages/AdvocacyExhibit.tsx:161-174 | the loop over the keys yields exactly the updated stats and recorded changes above, all stats in [0,100] |
| AdvocacyExhibit.AppliedIsClampAdjusted | src/pages/AdvocacyExhibit.tsx:167-169 | unclamped, the record is the rounded scaled delta; clamped at 0 it is minus the previous value; clamped at 100 it is the headroom |
| AdvocacyExhibit.ZeroMultiplierZeroesTheDelta | src/pages/AdvocacyExhibit.tsx:166 | an explicit zero multiplier leaves the stat unchanged and records 0, while the hook's `|| 1` counts it as 1 |
| AdvocacyExhibit.PartsOf | src/pages/AdvocacyExhibit.tsx:176-178 | every part is a listed key whose change is non-zero, and every such key has its part |
| AdvocacyExhibit.EventParts | src/pages/AdvocacyExhibit.tsx:176-178 | no parts iff no stat changed; each part carries its stat's non-zero change |
| AdvocacyExhibit.PushEvent | src/pages/AdvocacyExhibit.tsx:180-182 | the new entry comes first, followed by the older entries in order, at most six in all |
| AdvocacyExhibit.Available | src/pages/AdvocacyExhibit.tsx:57-60 | an obstacle is available iff it belongs to the landmark and its id is not yet revealed |
| AdvocacyExhibit.ObstacleForDirection | src/pages/AdvocacyExhibit.tsx:63-66 | none iff nothing is available; otherwise an available obstacle |
| AdvocacyExhibit.MapNodesWellFormed | src/pages/AdvocacyExhibit.tsx:67-140 | nine nodes, node i has id i, and every branch leads to a node |
| AdvocacyExhibit.NextNode | src/pages/AdvocacyExhibit.tsx:198-202 | from a valid node the walker stays on a valid node |
| AdvocacyExhibit.ApplyImpactStep | src/pages/AdvocacyExhibit.tsx:153-183 | nothing changes without a persona; otherwise the stats are updated and lie in [0,100], and an entry is pushed iff some recorded change is non-zero; step, selections, planning answer, revealed list, direction and node are unchanged |
| AdvocacyExhibit.Navigate | src/pages/AdvocacyExhibit.tsx:185-203 | nothing changes when no obstacle is left; otherwise a not-yet-revealed obstacle of the landmark is applied and appended, the direction remembered, the walker moved, the stats and event log as `ApplyImpactStep` leaves them for that obstacle; step, selections and planning answer unchanged |
| AdvocacyExhibit.AvailableKeepsOrder | src/pages/AdvocacyExhibit.tsx:57-60 | the available obstacles are a subsequence of the landmark's, in the landmark's order |
| AdvocacyExhibit.AvailableWhenNoneRevealed | src/pages/AdvocacyExhibit.tsx:57-60 | with nothing revealed every obstacle is available, in order |
| AdvocacyExhibit.AvailableIgnoresForeignId | src/pages/AdvocacyExhibit.tsx:57-60 | revealing an id no obstacle has leaves the available list unchanged |
| AdvocacyExhibit.AvailableShrinksByOne | src/pages/AdvocacyExhibit.tsx:57-60 | with distinct ids, revealing an available obstacle shortens the list by exactly one |
| AdvocacyExhibit.InitialGameConsistent | src/pages/AdvocacyExhibit.tsx:42-54 | the initial game satisfies the game invariant |
| AdvocacyExhibit.NavigateKeepsConsistent | src/pages/AdvocacyExhibit.tsx:185-203 | a navigation keeps the node valid, the revealed ids distinct and drawn from the landmark, and adds exactly one while any is left |
| AdvocacyExhibit.ChooseLandmarkKeepsConsistent | src/pages/AdvocacyExhibit.tsx:236-243 | choosing a landmark starts a consistent walk |
| AdvocacyExhibit.OtherHandlersKeepConsistent | src/pages/AdvocacyExhibit.tsx:142-208 | choosing a persona, answering, showing the map and applying an impact keep the invariant |
| AdvocacyExhibit.NavigationsExhaustObstacles | src/pages/AdvocacyExhibit.tsx:57-203 | from a fresh walk, k navigations reveal min(k, N) obstacles; after N every obstacle is revealed and further navigations change nothing |
| AdvocacyExhibit.CatalogWalksExhaust | src/pages/AdvocacyExhibit.tsx:57-203 | the same count for every catalog landmark |
| AdvocacyExhibit.TouristMeetsLongWalk | src/pages/AdvocacyExhibit.tsx:161-182 | from 95/85/600, `rp-distance` gives 90/60/100 and records health -5, stamina -25, money -500 |
| AdvocacyExhibit.FreshWalkStartsLeftAtFirst | src/pages/AdvocacyExhibit.tsx:63-66 | on a fresh walk, left picks the landmark's first obstacle |
| AdvocacyExhibit.LeftMeetsFirstOfAll | src/pages/AdvocacyExhibit.tsx:57-66 | with nothing revealed, left picks the first obstacle of any non-empty list |
| AdvocacyExhibit.TouristFirstMove | src/pages/AdvocacyExhibit.tsx:185-203 | the tourist's first move onto `rp-distance` caps the budget at 100 and logs the three changes |
| AdvocacyExhibit.MoneyIsClampedToOneHundred | src/pages/AdvocacyExhibit.tsx:153-203 | the tourist at Rizal Park going left reveals `rp-distance`, ends with money 100, and logs money -500 |
| AdvocacyExhibit.AdvocacyGame.constructor | src/pages/AdvocacyExhibit.tsx:42-54 | the cells start as the initial game |
| AdvocacyExhibit.AdvocacyGame.ChooseLandmark | src/pages/AdvocacyExhibit.tsx:236-243 | selects the landmark, clears revealed, log and direction, node 0, persona step |
| AdvocacyExhibit.AdvocacyGame.StartPersona | src/pages/AdvocacyExhibit.tsx:142-151 | selects the persona, stats become its baselines, no answer, traditional step |
| AdvocacyExhibit.AdvocacyGame.HandlePlanningAnswer | src/pages/AdvocacyExhibit.tsx:205-208 | records the answer and moves to the navigate step |
| AdvocacyExhibit.AdvocacyGame.ShowFullMap | src/pages/AdvocacyExhibit.tsx:366-370 | moves to the reveal step |
| AdvocacyExhibit.AdvocacyGame.ApplyImpact | src/pages/AdvocacyExhibit.tsx:153-183 | the cells move exactly as `ApplyImpactStep` |
| AdvocacyExhibit.AdvocacyGame.HandleNavigate | src/pages/AdvocacyExhibit.tsx:185-203 | the cells move exactly as `Navigate` |

The lemmas `Landmarks.RpDistanceOk` … `Landmarks.LsWeatherOk`, one per
condition, are the computation steps behind the per-landmark facts.

## Left out

- Rendering: all JSX, styling, the static text screens and their components
  are not modelled. This covers the welcome, landmark, persona and planning
  screens, the map-transparency screens, header, cards, condition reveal,
  knowledge map, solution map and stat bars. Only the values they are
  handed and the buttons they wire are modelled.
- The SVG map of the Philippines and its projection, and the avatar
  library wrapper, are presentation only.
- Descriptions, image URLs, avatars, map centres and other display-only
  record fields are not carried in the model.
- Numbers are exact: multipliers and the navigation game's stats are
  `real`, not IEEE doubles.
- React update semantics are not modelled: batching, stale closures and
  deferred state updaters. Each handler is one atomic step. In particular,
  the navigation game's recorded changes are taken as filled in before the
  log entry is built.
- Event log text: a navigation-game log entry is the structured label and
  list of (stat, change) parts; the `+`/`-` text formatting is not modelled.
- The navigation game's screens are not modelled as a routing invariant. The
  model covers its handlers and the invariant they keep, not which step
  shows which buttons, and not the direction-picker's disabling when nothing
  is left. (A navigation with nothing left changes nothing anyway.)
- A character builder (age brackets, condition penalties, archetype choice)
  is not part of this model; no such code is present in the files modelled.
