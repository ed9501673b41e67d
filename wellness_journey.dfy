/**
 * "Your Wellness Journey": four steps, the active one advancing every four
 * seconds once mounted or jumping to the step under the pointer; steps up to
 * the active one are highlighted and a progress line fills in proportion.
 */
module WellnessJourney {
  import opened Rotation

  datatype JourneyStep = JourneyStep(step: string, title: string, description: string, action: string)

  const Steps: seq<JourneyStep> := [
    JourneyStep("01", "Discover Your Needs",
      "Begin by understanding your unique wellness goals and how different botanicals can support your journey to better health.",
      "Take Our Quiz"),
    JourneyStep("02", "Explore Our Collection",
      "Browse our carefully curated selection of premium teas and herbs, each chosen for their therapeutic properties and exceptional quality.",
      "View Products"),
    JourneyStep("03", "Create Your Ritual",
      "Develop a personalized tea practice that fits seamlessly into your daily routine, bringing moments of peace and mindfulness.",
      "Learn Techniques"),
    JourneyStep("04", "Experience Transformation",
      "Feel the gentle, cumulative benefits as natural botanicals support your body's innate wisdom and healing capacity.",
      "Join Community")]

  /** The progress line's width in percent for an active step. */
  function ProgressWidth(activeStep: nat): (r: real)
    ensures activeStep < |Steps| ==> r == 25.0 || r == 50.0 || r == 75.0 || r == 100.0
    ensures activeStep < |Steps| ==> (r == 100.0 <==> activeStep == |Steps| - 1)
    ensures r == 25.0 * (activeStep + 1) as real
  {
    ((activeStep + 1) as real / |Steps| as real) * 100.0
  }

  /** The indices below `k`. */
  function Below(k: nat): (r: set<nat>)
    ensures forall index: nat :: index in r <==> index < k
    ensures |r| == k
  {
    if k == 0 then {} else Below(k - 1) + {k - 1}
  }

  class Journey {
    var activeStep: nat
    var mounted: bool

    ghost predicate Valid()
      reads this
    {
      activeStep < |Steps|
    }

    /** Step `index` is drawn highlighted: full opacity, filled number, default button. */
    function Highlighted(index: nat): bool
      reads this
    {
      index <= activeStep
    }

    /** Step `index` carries the pulse. */
    function Pulses(index: nat): bool
      reads this
    {
      index == activeStep
    }

    /**
     * The highlighted steps are exactly the first `activeStep + 1`, and the
     * pulse is on the last of them.
     */
    lemma HighlightIsPrefix()
      requires Valid()
      ensures (set index: nat | index < |Steps| && Highlighted(index)) == Below(activeStep + 1)
      ensures |set index: nat | index < |Steps| && Highlighted(index)| == activeStep + 1
      ensures (set index: nat | index < |Steps| && Pulses(index)) == {activeStep}
      ensures forall index: nat | Pulses(index) :: Highlighted(index) && !Highlighted(index + 1)
    {
    }

    constructor()
      ensures activeStep == 0 && !mounted && Valid()
    {
      activeStep := 0;
      mounted := false;
    }

    method Mount()
      modifies this
      ensures mounted && activeStep == old(activeStep)
    {
      mounted := true;
    }

    /** The four-second interval, installed once mounted. */
    method Tick()
      modifies this
      ensures mounted == old(mounted)
      ensures mounted ==> activeStep == Next(old(activeStep), |Steps|)
      ensures !mounted ==> activeStep == old(activeStep)
      ensures old(Valid()) ==> Valid()
    {
      if mounted {
        activeStep := (activeStep + 1) % |Steps|;
      }
    }

    /** The pointer enters step `index`. */
    method Hover(index: nat)
      requires index < |Steps|
      modifies this
      ensures activeStep == index && Valid() && Pulses(index)
      ensures mounted == old(mounted)
    {
      activeStep := index;
    }
  }
}
