/** The motivational panel: a carousel of five quotes that steps forward by
    itself and by button, and the study-streak badge. */
module Motivation {
  datatype Quote = Quote(text: string, author: string)

  const Quotes: seq<Quote> := [
    Quote("Success is the sum of small efforts, repeated day in and day out.", "Robert Collier"),
    Quote("The expert in anything was once a beginner.", "Helen Hayes"),
    Quote("Learning never exhausts the mind.", "Leonardo da Vinci"),
    Quote("Education is the most powerful weapon which you can use to change the world.", "Nelson Mandela"),
    Quote("The beautiful thing about learning is that no one can take it away from you.", "B.B. King")
  ]

  /** `(prev + 1) % motivationalQuotes.length`. */
  function NextIndex(i: nat): nat
  {
    (i + 1) % |Quotes|
  }

  /** `prev === 0 ? motivationalQuotes.length - 1 : prev - 1`. */
  function PrevIndex(i: nat): int
  {
    if i == 0 then |Quotes| - 1 else i - 1
  }

  /** From any index in range both steps stay in range and undo each
      other. */
  lemma StepsInverse(i: nat)
    requires i < |Quotes|
    ensures NextIndex(i) < |Quotes| && 0 <= PrevIndex(i) < |Quotes|
    ensures PrevIndex(NextIndex(i)) == i
    ensures NextIndex(PrevIndex(i)) == i
  {
  }

  /** `k` forward steps from `i`. */
  function Advance(i: nat, k: nat): nat
    decreases k
  {
    if k == 0 then i else Advance(NextIndex(i), k - 1)
  }

  /** `k` forward steps land on `(i + k) mod 5`; in particular five steps
      come back to the same quote. */
  lemma {:induction false} AdvanceMod(i: nat, k: nat)
    requires i < |Quotes|
    ensures Advance(i, k) == (i + k) % |Quotes|
    decreases k
  {
    if k > 0 {
      AdvanceMod(NextIndex(i), k - 1);
      assert ((i + 1) % 5 + (k - 1)) % 5 == (i + k) % 5;
    }
  }

  class QuoteCarousel {
    var currentQuoteIndex: nat

    predicate Valid()
      reads this
    {
      currentQuoteIndex < |Quotes|
    }

    constructor()
      ensures currentQuoteIndex == 0 && Valid()
    {
      currentQuoteIndex := 0;
    }

    /** The quote on show. */
    function CurrentQuote(): Quote
      reads this
      requires Valid()
    {
      Quotes[currentQuoteIndex]
    }

    /** `nextQuote`, and the five-second interval, which does the same. */
    method Next()
      requires Valid()
      modifies this
      ensures currentQuoteIndex == NextIndex(old(currentQuoteIndex)) && Valid()
    {
      currentQuoteIndex := (currentQuoteIndex + 1) % |Quotes|;
    }

    /** `prevQuote`. */
    method Prev()
      requires Valid()
      modifies this
      ensures currentQuoteIndex == PrevIndex(old(currentQuoteIndex)) && Valid()
    {
      currentQuoteIndex := if currentQuoteIndex == 0 then |Quotes| - 1 else currentQuoteIndex - 1;
    }

    /** A click on the indicator dot of quote `index`; afterwards exactly
        that dot is highlighted. */
    method Select(index: nat)
      requires index < |Quotes|
      modifies this
      ensures currentQuoteIndex == index && Valid()
      ensures forall j :: 0 <= j < |Quotes| ==> (IsHighlighted(j) <==> j == index)
    {
      currentQuoteIndex := index;
    }

    /** The dot for quote `j` is drawn highlighted. */
    predicate IsHighlighted(j: nat)
      reads this
    {
      j == currentQuoteIndex
    }
  }

  datatype BadgeVariant = Default | Secondary | Outline

  datatype StreakBadge = StreakBadge(variant: BadgeVariant, text: string)

  /** The badge for the current streak. */
  function Badge(currentStreak: int): StreakBadge
  {
    if currentStreak >= 7 then StreakBadge(Default, "\U{1F525} On Fire!")
    else if currentStreak >= 3 then StreakBadge(Secondary, "\U{26A1} Great!")
    else StreakBadge(Outline, "\U{1F4DA} Keep Going!")
  }

  function Tier(b: StreakBadge): nat
  {
    match b.variant
    case Outline => 0
    case Secondary => 1
    case Default => 2
  }

  /** A longer streak never gets a lesser badge; the thresholds are 3 and 7. */
  lemma BadgeMonotone(s: int, t: int)
    requires s <= t
    ensures Tier(Badge(s)) <= Tier(Badge(t))
    ensures Badge(s).variant == Default <==> s >= 7
    ensures Badge(s).variant == Outline <==> s < 3
  {
  }

  /** "New Record!" is shown for a positive streak equal to the best. */
  predicate NewRecord(currentStreak: int, bestStreak: int)
  {
    currentStreak == bestStreak && currentStreak > 0
  }
}
