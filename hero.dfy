/**
 * The hero banner's slider over three featured teas: arrows, dots and an
 * auto-advance every five seconds once the component has mounted.
 */
module Hero {
  import opened Rotation

  /** A featured slide. The image path is not modelled. */
  datatype Slide = Slide(id: nat, name: string, description: string, benefits: seq<string>)

  const Slides: seq<Slide> := [
    Slide(1, "Tranquil Evening Blend",
      "A soothing chamomile and lavender blend perfect for unwinding after a long day",
      ["Promotes relaxation", "Improves sleep quality", "Reduces stress"]),
    Slide(2, "Morning Clarity Tea",
      "Energizing green tea with ginseng and mint to start your day mindfully",
      ["Boosts energy", "Enhances focus", "Rich in antioxidants"]),
    Slide(3, "Digestive Harmony",
      "Gentle herbal blend with ginger and fennel to support digestive wellness",
      ["Aids digestion", "Soothes stomach", "Natural ingredients"])]

  class HeroSlider {
    var mounted: bool
    var currentSlide: nat

    /** The slide index names one of the slides. */
    ghost predicate Valid()
      reads this
    {
      currentSlide < |Slides|
    }

    /** Whether the dot for slide `index` is drawn active. */
    function DotActive(index: nat): bool
      reads this
    {
      index == currentSlide
    }

    /** The track's horizontal offset, in percent of one slide, to the left. */
    function TrackOffset(): (r: nat)
      reads this
      ensures Valid() ==> r == 0 || r == 100 || r == 200
    {
      currentSlide * 100
    }

    /** Exactly one dot is active: the current slide's. */
    lemma ExactlyOneDot()
      requires Valid()
      ensures (set index: nat | index < |Slides| && DotActive(index)) == {currentSlide}
    {
    }

    constructor()
      ensures !mounted && currentSlide == 0 && Valid()
    {
      mounted := false;
      currentSlide := 0;
    }

    /** The mount effect. */
    method Mount()
      modifies this
      ensures mounted && currentSlide == old(currentSlide)
    {
      mounted := true;
    }

    /** The five-second interval, which exists only once mounted. */
    method Tick()
      modifies this
      ensures mounted == old(mounted)
      ensures mounted ==> currentSlide == Next(old(currentSlide), |Slides|)
      ensures !mounted ==> currentSlide == old(currentSlide)
      ensures old(Valid()) ==> Valid()
    {
      if mounted {
        currentSlide := (currentSlide + 1) % |Slides|;
      }
    }

    /** `nextSlide`, the right arrow. */
    method NextSlide()
      modifies this
      ensures currentSlide == Next(old(currentSlide), |Slides|) && Valid()
      ensures mounted == old(mounted)
    {
      currentSlide := (currentSlide + 1) % |Slides|;
    }

    /** `prevSlide`, the left arrow. */
    method PrevSlide()
      modifies this
      ensures currentSlide == Prev(old(currentSlide), |Slides|) && Valid()
      ensures mounted == old(mounted)
    {
      currentSlide := (currentSlide - 1 + |Slides|) % |Slides|;
    }

    /** A dot click: each dot passes its own index. */
    method GoToSlide(index: nat)
      requires index < |Slides|
      modifies this
      ensures currentSlide == index && Valid() && DotActive(index)
      ensures mounted == old(mounted)
    {
      currentSlide := index;
    }
  }

  /** Three presses of the right arrow come back to the slide they started from. */
  method ThreeNextsReturn(slider: HeroSlider)
    requires slider.Valid()
    modifies slider
    ensures slider.currentSlide == old(slider.currentSlide) && slider.mounted == old(slider.mounted)
  {
    ghost var start := slider.currentSlide;
    slider.NextSlide();
    slider.NextSlide();
    slider.NextSlide();
    FullCycle(start, |Slides|);
  }
}
