/**
 * The organic and the recyclable disposal guides. Both screens run the same logic
 * over their own four tips and five facts (whose texts are not modelled): a carousel of facts stepped forwards and
 * backwards around the ring, an accordion of tips of which at most one is open, a
 * staggered reveal that shows the tips one after another, and an item name taken
 * from the route with a default.
 */
module Disposal {
  import opened Wrappers

  /** Each guide has four tips and five facts. */
  const TipCount := 4
  const FactCount := 5

  // ---------------------------------------------------------------------------
  // Item name
  // ---------------------------------------------------------------------------

  const DefaultItemName := "this item"

  /** `params.item || "this item"`: an absent or empty parameter gives the default. */
  function ItemName(item: Option<string>): (r: string)
    ensures item.Some? && item.value != "" ==> r == item.value
    ensures item.None? || item.value == "" ==> r == DefaultItemName
    ensures r != ""
  {
    if item.Some? && item.value != "" then item.value else DefaultItemName
  }

  // ---------------------------------------------------------------------------
  // The fact carousel
  // ---------------------------------------------------------------------------

  /** `handleNextFact`: one step forwards around the ring of facts. */
  function NextFact(i: nat): (r: nat)
    ensures r < FactCount
  {
    (i + 1) % FactCount
  }

  /** `handlePrevFact`: one step backwards, from the first fact to the last. */
  function PrevFact(i: nat): (r: nat)
    requires i < FactCount
    ensures r < FactCount
  {
    if i == 0 then FactCount - 1 else i - 1
  }

  /** Stepping back undoes stepping forwards, and the other way round. */
  lemma PrevNextInverse(i: nat)
    requires i < FactCount
    ensures PrevFact(NextFact(i)) == i
    ensures NextFact(PrevFact(i)) == i
  {
  }

  /** `n` steps forwards. */
  function NextFactN(i: nat, n: nat): (r: nat)
    requires i < FactCount
    ensures r < FactCount
  {
    if n == 0 then i else NextFact(NextFactN(i, n - 1))
  }

  /** `n` steps forwards land `n` places on, modulo five; five steps come back. */
  lemma {:induction false} NextFactNIsModular(i: nat, n: nat)
    requires i < FactCount
    ensures NextFactN(i, n) == (i + n) % FactCount
  {
    if n > 0 {
      NextFactNIsModular(i, n - 1);
      StepModulo(i + n - 1);
    }
  }

  /** Taking one more step after reducing modulo five is the same as reducing after it. */
  lemma StepModulo(x: nat)
    ensures (x % FactCount + 1) % FactCount == (x + 1) % FactCount
  {
  }

  /** Five steps forwards come back to the same fact. */
  lemma FullTurn(i: nat)
    requires i < FactCount
    ensures NextFactN(i, FactCount) == i
  {
    NextFactNIsModular(i, FactCount);
  }

  /** Every fact is reached from every other one in fewer than five steps forwards. */
  lemma EveryFactReached(i: nat, j: nat)
    requires i < FactCount && j < FactCount
    ensures var n := (j - i + FactCount) % FactCount;
            n < FactCount && NextFactN(i, n) == j
  {
    NextFactNIsModular(i, (j - i + FactCount) % FactCount);
  }

  // ---------------------------------------------------------------------------
  // The tips
  // ---------------------------------------------------------------------------

  /** The indices `from`, `from + 1`, ..., `to - 1`. */
  function Range(from: nat, to: nat): (r: seq<nat>)
    requires from <= to
    ensures |r| == to - from
    ensures forall k :: 0 <= k < |r| ==> r[k] == from + k
  {
    seq(to - from, k requires 0 <= k < to - from => from + k)
  }

  class GuideScreen {
    const itemName: string
    var currentFactIndex: nat
    var expandedTip: Option<nat>
    var visibleTips: seq<nat>

    /** The open tip, if any, is one that has been revealed; the fact index is on a fact. */
    predicate Valid()
      reads this
    {
      && currentFactIndex < FactCount
      && (expandedTip.Some? ==> expandedTip.value in visibleTips)
      && (forall k :: 0 <= k < |visibleTips| ==> visibleTips[k] < TipCount)
    }

    /** Mounting the screen: first fact, nothing revealed, nothing open. */
    constructor (item: Option<string>)
      ensures Valid()
      ensures itemName == ItemName(item)
      ensures currentFactIndex == 0 && expandedTip.None? && visibleTips == []
    {
      itemName := ItemName(item);
      currentFactIndex := 0;
      expandedTip := None;
      visibleTips := [];
    }

    /** `showTips`: every 200 ms the next tip index is appended, from the first to the last. */
    method ShowTips()
      requires Valid()
      modifies this
      ensures Valid()
      ensures visibleTips == old(visibleTips) + Range(0, TipCount)
      ensures currentFactIndex == old(currentFactIndex) && expandedTip == old(expandedTip)
    {
      var index := 0;
      while index < TipCount
        invariant 0 <= index <= TipCount
        invariant visibleTips == old(visibleTips) + Range(0, index)
        invariant Valid()
        invariant currentFactIndex == old(currentFactIndex) && expandedTip == old(expandedTip)
      {
        visibleTips := visibleTips + [index];
        index := index + 1;
      }
    }

    /**
     * `handleTipPress`: pressing the open tip closes it, pressing any other revealed
     * tip opens that one and closes the one that was open.
     */
    method HandleTipPress(index: nat)
      requires Valid() && index in visibleTips
      modifies this
      ensures Valid()
      ensures old(expandedTip) == Some(index) ==> expandedTip.None?
      ensures old(expandedTip) != Some(index) ==> expandedTip == Some(index)
      ensures currentFactIndex == old(currentFactIndex) && visibleTips == old(visibleTips)
    {
      if expandedTip == Some(index) {
        expandedTip := None;
      } else {
        expandedTip := Some(index);
      }
    }

    /** `handleNextFact`. */
    method HandleNextFact()
      requires Valid()
      modifies this
      ensures Valid()
      ensures currentFactIndex == NextFact(old(currentFactIndex))
      ensures expandedTip == old(expandedTip) && visibleTips == old(visibleTips)
    {
      currentFactIndex := (currentFactIndex + 1) % FactCount;
    }

    /** `handlePrevFact`. */
    method HandlePrevFact()
      requires Valid()
      modifies this
      ensures Valid()
      ensures currentFactIndex == PrevFact(old(currentFactIndex))
      ensures expandedTip == old(expandedTip) && visibleTips == old(visibleTips)
    {
      currentFactIndex := if currentFactIndex == 0 then FactCount - 1 else currentFactIndex - 1;
    }
  }

  /** After mounting and the reveal, the tips 0, 1, 2, 3 are shown in order, each once. */
  method MountAndReveal(item: Option<string>) returns (screen: GuideScreen)
    ensures screen.Valid()
    ensures screen.visibleTips == [0, 1, 2, 3]
    ensures forall j, k :: 0 <= j < k < |screen.visibleTips| ==> screen.visibleTips[j] < screen.visibleTips[k]
    ensures screen.itemName == ItemName(item) && screen.currentFactIndex == 0
  {
    screen := new GuideScreen(item);
    screen.ShowTips();
  }

  /**
   * Pressing the same tip twice: an open tip closes and reopens; otherwise the tip
   * opens and closes, which leaves every tip closed.
   */
  method PressTwice(screen: GuideScreen, index: nat)
    requires screen.Valid() && index in screen.visibleTips
    modifies screen
    ensures old(screen.expandedTip) == Some(index) ==> screen.expandedTip == Some(index)
    ensures old(screen.expandedTip) != Some(index) ==> screen.expandedTip.None?
    ensures screen.currentFactIndex == old(screen.currentFactIndex)
    ensures screen.visibleTips == old(screen.visibleTips)
  {
    screen.HandleTipPress(index);
    screen.HandleTipPress(index);
  }
}
