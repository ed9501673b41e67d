/**
 * "Moments of Mindfulness": six quotes that advance every six seconds unless
 * paused, with indicator dots, a skip button and a 300 ms fade between
 * quotes.
 *
 * Every change of quote is scheduled as a 300 ms timeout. All timeouts have
 * the same delay, so they fire in the order they were scheduled: the model
 * keeps them as a queue of pending transitions, and `Complete` fires the
 * oldest.
 */
module CalmingQuotes {
  import opened Rotation

  datatype Quote = Quote(text: string, author: string, theme: string)

  const Quotes: seq<Quote> := [
    Quote("In the silence between sips, we find our truest selves.", "Ancient Tea Wisdom", "mindfulness"),
    Quote("Every cup of tea represents an imaginary voyage.", "Catherine Douzel", "journey"),
    Quote("Tea is the elixir of life, bringing peace to the restless soul.", "Zen Botanica", "peace"),
    Quote("Where there is tea, there is hope.", "Arthur Wing Pinero", "hope"),
    Quote("Tea is a cup of life, steeped in moments of tranquility.", "Zen Philosophy", "tranquility"),
    Quote("In every leaf lies the wisdom of the earth.", "Botanical Wisdom", "nature")]

  /**
   * A scheduled 300 ms completion: the interval's `(prev + 1) % 6`, or a
   * request for a given quote.
   */
  datatype Transition = AdvanceQuote | ShowQuote(index: nat)

  /** The quote a completion leaves on screen. */
  function Apply(current: nat, t: Transition): (r: nat)
    ensures t.AdvanceQuote? ==> r < |Quotes|
    ensures t.ShowQuote? ==> r == t.index
  {
    match t
    case AdvanceQuote => Next(current, |Quotes|)
    case ShowQuote(index) => index
  }

  /** The quote on screen once every pending completion has fired, oldest first. */
  function Settle(current: nat, pending: seq<Transition>): nat
    decreases |pending|
  {
    if pending == [] then current else Settle(Apply(current, pending[0]), pending[1..])
  }

  /** Scheduling one more completion applies it after the pending ones. */
  lemma {:induction false} SettleAppend(current: nat, pending: seq<Transition>, t: Transition)
    ensures Settle(current, pending + [t]) == Apply(Settle(current, pending), t)
    decreases |pending|
  {
    if pending != [] {
      assert (pending + [t])[1..] == pending[1..] + [t];
      SettleAppend(Apply(current, pending[0]), pending[1..], t);
    }
  }

  /** A completion names an existing quote. */
  predicate InRange(t: Transition)
  {
    t.ShowQuote? ==> t.index < |Quotes|
  }

  class QuoteRotator {
    var currentQuote: nat
    var isAnimating: bool
    var isPaused: bool
    /** The 300 ms timeouts scheduled and not yet fired, oldest first. */
    var scheduled: seq<Transition>

    ghost predicate Valid()
      reads this
    {
      currentQuote < |Quotes| && forall k | 0 <= k < |scheduled| :: InRange(scheduled[k])
    }

    /** The quote that will be on screen once the scheduled completions have fired. */
    function Target(): nat
      reads this
    {
      Settle(currentQuote, scheduled)
    }

    /** Whether indicator `index` is drawn active. */
    function IndicatorActive(index: nat): bool
      reads this
    {
      index == currentQuote
    }

    /** Exactly one indicator is active: the shown quote's. */
    lemma ExactlyOneIndicator()
      requires Valid()
      ensures (set index: nat | index < |Quotes| && IndicatorActive(index)) == {currentQuote}
    {
    }

    constructor()
      ensures currentQuote == 0 && !isAnimating && !isPaused && scheduled == [] && Valid()
    {
      currentQuote := 0;
      isAnimating := false;
      isPaused := false;
      scheduled := [];
    }

    /**
     * The six-second interval. It is cleared while paused, so a paused
     * rotator does not tick; otherwise the fade starts and an advance is
     * scheduled.
     */
    method Tick()
      modifies this
      ensures isPaused == old(isPaused) && currentQuote == old(currentQuote)
      ensures old(isPaused) ==> isAnimating == old(isAnimating) && scheduled == old(scheduled)
      ensures !old(isPaused) ==> isAnimating && scheduled == old(scheduled) + [AdvanceQuote]
      ensures !old(isPaused) ==> Target() == Next(old(Target()), |Quotes|)
      ensures old(Valid()) ==> Valid()
    {
      if !isPaused {
        isAnimating := true;
        SettleAppend(currentQuote, scheduled, AdvanceQuote);
        scheduled := scheduled + [AdvanceQuote];
      }
    }

    /**
     * `handleQuoteChange`: a request for the quote on screen does nothing;
     * any other starts the fade and schedules the requested quote.
     */
    method HandleQuoteChange(index: nat)
      requires index < |Quotes|
      modifies this
      ensures isPaused == old(isPaused) && currentQuote == old(currentQuote)
      ensures index == old(currentQuote) ==> isAnimating == old(isAnimating) && scheduled == old(scheduled)
      ensures index != old(currentQuote) ==> isAnimating && scheduled == old(scheduled) + [ShowQuote(index)]
      ensures index != old(currentQuote) ==> Target() == index
      ensures old(Valid()) ==> Valid()
    {
      if index == currentQuote {
        return;
      }
      isAnimating := true;
      SettleAppend(currentQuote, scheduled, ShowQuote(index));
      scheduled := scheduled + [ShowQuote(index)];
    }

    /** The skip button requests the next quote, wrapping from the last to the first. */
    method Skip()
      requires Valid()
      modifies this
      ensures isAnimating && scheduled == old(scheduled) + [ShowQuote(Next(old(currentQuote), |Quotes|))]
      ensures Target() == Next(old(currentQuote), |Quotes|)
      ensures currentQuote == old(currentQuote) && isPaused == old(isPaused) && Valid()
    {
      HandleQuoteChange((currentQuote + 1) % |Quotes|);
    }

    /** The pause button. Timeouts already scheduled still fire. */
    method TogglePause()
      modifies this
      ensures isPaused == !old(isPaused)
      ensures currentQuote == old(currentQuote) && isAnimating == old(isAnimating) && scheduled == old(scheduled)
    {
      isPaused := !isPaused;
    }

    /** The oldest scheduled timeout fires: its quote is shown and the fade ends. */
    method Complete()
      requires scheduled != []
      modifies this
      ensures currentQuote == Apply(old(currentQuote), old(scheduled[0]))
      ensures !isAnimating && scheduled == old(scheduled[1..]) && isPaused == old(isPaused)
      ensures Target() == old(Target())
      ensures old(Valid()) ==> Valid()
    {
      var t := scheduled[0];
      match t {
        case AdvanceQuote => currentQuote := (currentQuote + 1) % |Quotes|;
        case ShowQuote(index) => currentQuote := index;
      }
      isAnimating := false;
      scheduled := scheduled[1..];
    }
  }

  /**
   * With nothing pending, a request for another quote followed by its
   * timeout shows that quote and ends the fade.
   */
  method RequestThenSettle(rotator: QuoteRotator, index: nat)
    requires rotator.Valid() && rotator.scheduled == [] && index < |Quotes| && index != rotator.currentQuote
    modifies rotator
    ensures rotator.currentQuote == index && !rotator.isAnimating && rotator.scheduled == [] && rotator.Valid()
  {
    rotator.HandleQuoteChange(index);
    rotator.Complete();
  }
}
