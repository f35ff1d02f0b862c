/**
 * What the reveal screen derives from the session: the progress bar, the
 * impact shown on each condition card, the action button and the status
 * line.
 */
module RevealScreen {
  import opened ExhibitTypes
  import opened ExhibitHook

  /** Every condition has been revealed. */
  predicate AllRevealed(index: nat, total: nat) {
    index >= total
  }

  /** A condition card (and its progress segment) is shown uncovered. */
  predicate IsRevealed(i: nat, index: nat) {
    i < index
  }

  /** The progress bar: one segment per condition, filled when revealed. */
  function Progress(total: nat, index: nat): (bar: seq<bool>)
    ensures |bar| == total
    ensures forall i :: 0 <= i < total ==> (bar[i] <==> IsRevealed(i, index))
  {
    seq(total, i requires 0 <= i < total => i < index)
  }

  function CountFilled(bar: seq<bool>): nat {
    if bar == [] then 0 else (if bar[|bar| - 1] then 1 else 0) + CountFilled(bar[..|bar| - 1])
  }

  /** The bar has min(index, total) filled segments, all at its start. */
  lemma {:induction false} ProgressCountsReveals(total: nat, index: nat)
    ensures CountFilled(Progress(total, index)) == if index <= total then index else total
  {
    if total > 0 {
      ProgressCountsReveals(total - 1, index);
      assert Progress(total, index)[..total - 1] == Progress(total - 1, index);
    }
  }

  /** `revealedConditions.find`: the first log entry for the condition id. */
  function FindById(log: seq<RevealedCondition>, id: string): (r: Option<RevealedCondition>)
    ensures r.None? <==> forall j :: 0 <= j < |log| ==> log[j].condition.id != id
    ensures r.Some? ==> exists j ::
      && 0 <= j < |log| && log[j] == r.value && log[j].condition.id == id
      && forall k :: 0 <= k < j ==> log[k].condition.id != id
  {
    if log == [] then None
    else if log[0].condition.id == id then Some(log[0])
    else
      var r := FindById(log[1..], id);
      assert forall j :: 0 < j < |log| ==> log[1..][j - 1] == log[j];
      r
  }

  /** The impacts drawn on a condition card: the logged ones, or zeros when not found. */
  function ShownImpact(log: seq<RevealedCondition>, c: HiddenCondition): (r: Impact)
    ensures (forall j :: 0 <= j < |log| ==> log[j].condition.id != c.id) ==> r == NoImpact
    ensures forall j ::
      (&& 0 <= j < |log| && log[j].condition.id == c.id
       && forall k :: 0 <= k < j ==> log[k].condition.id != c.id)
      ==> r == EntryImpact(log[j])
  {
    match FindById(log, c.id)
    case None => NoImpact
    case Some(e) => EntryImpact(e)
  }

  /** The change the stat bars display: the latest log entry's impacts. */
  function LatestChange(log: seq<RevealedCondition>): (r: Option<Impact>)
    ensures r.None? <==> log == []
    ensures log != [] ==> r.value == EntryImpact(log[|log| - 1])
  {
    if log == [] then None else Some(EntryImpact(log[|log| - 1]))
  }

  datatype RevealAction = ContinueWalking | ViewFinalResults

  /** The single action button: reveal the next condition, or finish once all are revealed. */
  function ActionButton(index: nat, total: nat): (a: RevealAction)
    ensures a == ViewFinalResults <==> AllRevealed(index, total)
  {
    if !AllRevealed(index, total) then ContinueWalking else ViewFinalResults
  }

  datatype StatusMessage = Starting | Encountered(count: nat, total: nat) | VisitComplete

  /** The status line: three independent conditions, each adding its message. */
  function StatusMessages(index: nat, total: nat): (r: seq<StatusMessage>)
    ensures Starting in r <==> index == 0
    ensures Encountered(index, total) in r <==> 0 < index < total
    ensures VisitComplete in r <==> AllRevealed(index, total)
    ensures forall m :: m in r ==> m == Starting || m == Encountered(index, total) || m == VisitComplete
  {
    (if index == 0 then [Starting] else [])
    + (if 0 < index < total then [Encountered(index, total)] else [])
    + (if AllRevealed(index, total) then [VisitComplete] else [])
  }

  /**
   * With at least one condition, exactly one status message shows, and it
   * announces completion exactly when the button offers the final results.
   */
  lemma ExactlyOneStatus(index: nat, total: nat)
    requires total >= 1
    ensures |StatusMessages(index, total)| == 1
    ensures index == 0 ==> StatusMessages(index, total) == [Starting]
    ensures 0 < index < total ==> StatusMessages(index, total) == [Encountered(index, total)]
    ensures StatusMessages(index, total) == [VisitComplete]
        <==> ActionButton(index, total) == ViewFinalResults
  {
  }

  /** A landmark with no conditions would show both the starting and the complete message. */
  lemma EmptyLandmarkShowsTwoStatuses()
    ensures StatusMessages(0, 0) == [Starting, VisitComplete]
  {
  }

  /**
   * When the log replays the landmark's first `|log|` conditions in order
   * and the condition ids are distinct, a card is uncovered exactly when its
   * condition is in the log, an uncovered card shows its own log entry, and
   * a covered one shows zeros.
   */
  lemma {:induction false} CardsAgreeWithLog(log: seq<RevealedCondition>, conds: seq<HiddenCondition>, i: nat)
    requires UniqueIds(conds)
    requires |log| <= |conds|
    requires forall j :: 0 <= j < |log| ==> log[j].condition == conds[j]
    requires i < |conds|
    ensures IsRevealed(i, |log|) <==> FindById(log, conds[i].id).Some?
    ensures IsRevealed(i, |log|) ==> ShownImpact(log, conds[i]) == EntryImpact(log[i])
    ensures !IsRevealed(i, |log|) ==> ShownImpact(log, conds[i]) == NoImpact
  {
    var r := FindById(log, conds[i].id);
    if r.Some? {
      var j :| 0 <= j < |log| && log[j] == r.value && log[j].condition.id == conds[i].id;
      assert conds[j].id == conds[i].id;
      assert j == i;
    }
  }
}
