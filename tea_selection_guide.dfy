/**
 * "Find Your Perfect Tea": a row of benefit buttons that toggle a selection,
 * and the teas sharing at least one selected benefit.
 */
module TeaSelectionGuide {
  import opened Seqs

  /** A benefit button: the id kept in the selection and its caption. */
  datatype Benefit = Benefit(id: string, caption: string)

  const Benefits: seq<Benefit> := [
    Benefit("relaxation", "Relaxation"),
    Benefit("energy", "Energy"),
    Benefit("focus", "Focus"),
    Benefit("digestion", "Digestion"),
    Benefit("immunity", "Immunity"),
    Benefit("sleep", "Sleep")]

  /** A tea card of the guide. */
  datatype Tea = Tea(name: string, benefits: seq<string>, description: string, price: string)

  const TranquilEvening := Tea("Tranquil Evening Blend", ["relaxation", "sleep"],
    "Chamomile, lavender, and lemon balm for peaceful nights", "$24.99")
  const MorningClarity := Tea("Morning Clarity Tea", ["energy", "focus"],
    "Ginkgo, green tea, and mint for mental focus", "$28.99")
  const StressRelief := Tea("Stress Relief Blend", ["relaxation", "focus"],
    "Ashwagandha, holy basil, and rose petals for calm", "$32.99")
  const DigestiveHarmony := Tea("Digestive Harmony", ["digestion"],
    "Ginger, fennel, and peppermint for gut wellness", "$26.99")
  const ImmuneBoost := Tea("Immune Boost Tea", ["immunity", "energy"],
    "Elderberry, echinacea, and ginger for natural defense", "$29.99")
  const DeepSleep := Tea("Deep Sleep Blend", ["sleep", "relaxation"],
    "Valerian root, passionflower, and chamomile for restful nights", "$27.99")

  const Teas: seq<Tea> := [TranquilEvening, MorningClarity, StressRelief, DigestiveHarmony, ImmuneBoost, DeepSleep]

  /** The id of one of the six benefit buttons. */
  predicate IsBenefitId(id: string)
  {
    exists k | 0 <= k < |Benefits| :: Benefits[k].id == id
  }

  /** `(id) => id !== benefitId` */
  function OtherThan(benefitId: string): string -> bool
  {
    id => id != benefitId
  }

  /**
   * `toggleBenefit`'s update: a selected id is filtered out, an unselected
   * one is appended at the end.
   */
  function Toggled(selected: seq<string>, benefitId: string): (r: seq<string>)
    ensures benefitId in r <==> benefitId !in selected
    ensures forall other | other != benefitId :: other in r <==> other in selected
    ensures benefitId !in selected ==> r == selected + [benefitId]
  {
    FilterMembers(selected, OtherThan(benefitId));
    if benefitId in selected then Filter(selected, OtherThan(benefitId)) else selected + [benefitId]
  }

  /** A selection without repetitions stays so after a toggle. */
  lemma ToggledNoDuplicates(selected: seq<string>, benefitId: string)
    requires NoDuplicates(selected)
    ensures NoDuplicates(Toggled(selected, benefitId))
  {
    if benefitId in selected {
      FilterNoDuplicates(selected, OtherThan(benefitId));
    }
  }

  /** Toggling an unselected id twice gives back exactly the same list. */
  lemma ToggleAbsentTwice(selected: seq<string>, benefitId: string)
    requires benefitId !in selected
    ensures Toggled(Toggled(selected, benefitId), benefitId) == selected
  {
    FilterAppend(selected, [benefitId], OtherThan(benefitId));
    FilterKeepsAll(selected, OtherThan(benefitId));
    assert Filter([benefitId], OtherThan(benefitId)) == [];
  }

  /**
   * Toggling a selected id twice moves it to the end: the order of the
   * selection is not restored, only its members.
   */
  lemma TogglePresentTwice(selected: seq<string>, benefitId: string)
    requires benefitId in selected
    ensures Toggled(Toggled(selected, benefitId), benefitId) == Filter(selected, OtherThan(benefitId)) + [benefitId]
  {
  }

  /** `tea.benefits.includes(benefit)` for some selected benefit. */
  predicate SharesBenefit(tea: Tea, selected: seq<string>)
  {
    exists b | b in selected :: b in tea.benefits
  }

  function SharesTest(selected: seq<string>): Tea -> bool
  {
    tea => SharesBenefit(tea, selected)
  }

  /**
   * `filteredTeas`: all teas for an empty selection; otherwise, in catalog
   * order, exactly the teas sharing a benefit with the selection.
   */
  function FilteredTeas(selected: seq<string>): (r: seq<Tea>)
    ensures |selected| == 0 ==> r == Teas
    ensures |selected| > 0 ==> IsSubsequence(r, Teas)
    ensures |selected| > 0 ==> forall tea :: tea in r <==> tea in Teas && SharesBenefit(tea, selected)
  {
    if |selected| == 0 then Teas
    else
      FilterMembers(Teas, SharesTest(selected));
      FilterIsSubsequence(Teas, SharesTest(selected));
      Filter(Teas, SharesTest(selected))
  }

  /** For a non-empty selection, selecting one more benefit never hides a tea. */
  lemma {:induction false} MoreBenefitsMoreTeas(selected: seq<string>, benefitId: string)
    requires |selected| > 0
    ensures IsSubsequence(FilteredTeas(selected), FilteredTeas(selected + [benefitId]))
  {
    var more := selected + [benefitId];
    forall tea | SharesTest(selected)(tea) ensures SharesTest(more)(tea) {
      var b :| b in selected && b in tea.benefits;
      assert b in more;
    }
    FilterMonotone(Teas, SharesTest(selected), SharesTest(more));
  }

  /** Each benefit button is carried by some tea. */
  lemma {:induction false} EveryBenefitCarried(k: nat)
    requires k < |Benefits|
    ensures exists tea | tea in Teas :: Benefits[k].id in tea.benefits
  {
    if k == 0 {
      assert Benefits[k].id == TranquilEvening.benefits[0];
      assert TranquilEvening == Teas[0];
    } else if k == 1 {
      assert Benefits[k].id == MorningClarity.benefits[0];
      assert MorningClarity == Teas[1];
    } else if k == 2 {
      assert Benefits[k].id == MorningClarity.benefits[1];
      assert MorningClarity == Teas[1];
    } else if k == 3 {
      assert Benefits[k].id == DigestiveHarmony.benefits[0];
      assert DigestiveHarmony == Teas[3];
    } else if k == 4 {
      assert Benefits[k].id == ImmuneBoost.benefits[0];
      assert ImmuneBoost == Teas[4];
    } else {
      assert Benefits[k].id == TranquilEvening.benefits[1];
      assert TranquilEvening == Teas[0];
    }
  }

  /**
   * A non-empty selection of benefit ids always shows at least one tea, so
   * the "No teas match" message never appears.
   */
  lemma NeverEmpty(selected: seq<string>)
    requires |selected| > 0
    requires forall b | b in selected :: IsBenefitId(b)
    ensures |FilteredTeas(selected)| > 0
  {
    var b := selected[0];
    assert b in selected && IsBenefitId(b);
    var k :| 0 <= k < |Benefits| && Benefits[k].id == b;
    EveryBenefitCarried(k);
    var tea :| tea in Teas && b in tea.benefits;
    assert SharesBenefit(tea, selected);
    assert tea in FilteredTeas(selected);
  }

  /** The guide's state: the ordered list of selected benefit ids. */
  class Guide {
    var selectedBenefits: seq<string>

    /** What the buttons can reach: benefit ids, each at most once. */
    ghost predicate Valid()
      reads this
    {
      NoDuplicates(selectedBenefits) && forall b | b in selectedBenefits :: IsBenefitId(b)
    }

    /** The teas on screen. */
    function Shown(): seq<Tea>
      reads this
    {
      FilteredTeas(selectedBenefits)
    }

    /** Whether the "No teas match your selected benefits" message is shown. */
    function ShowsEmptyMessage(): bool
      reads this
    {
      |Shown()| == 0
    }

    constructor()
      ensures selectedBenefits == [] && Valid()
      ensures Shown() == Teas
    {
      selectedBenefits := [];
    }

    /**
     * `toggleBenefit`. Every button passes a benefit id, so from a reachable
     * selection the next one is reachable too and shows at least one tea.
     */
    method ToggleBenefit(benefitId: string)
      modifies this
      ensures selectedBenefits == Toggled(old(selectedBenefits), benefitId)
      ensures old(NoDuplicates(selectedBenefits)) ==> NoDuplicates(selectedBenefits)
      ensures old(Valid()) && IsBenefitId(benefitId) ==> Valid() && !ShowsEmptyMessage()
    {
      var before := selectedBenefits;
      if benefitId in selectedBenefits {
        selectedBenefits := Filter(selectedBenefits, OtherThan(benefitId));
      } else {
        selectedBenefits := selectedBenefits + [benefitId];
      }
      if NoDuplicates(before) {
        ToggledNoDuplicates(before, benefitId);
      }
      if |selectedBenefits| > 0 && forall b | b in selectedBenefits :: IsBenefitId(b) {
        NeverEmpty(selectedBenefits);
      }
    }
  }
}
