/**
  * The dashboard's quote card: twelve fixed quotes, one chosen per day by a
  * hash of the date text and advanced by the shuffle button. The date text
  * (`new Date().toDateString()`) is a parameter.
  */
module QuoteCard {

  datatype Quote = Quote(text: string, author: string)

  /** `quotes[i]`: the twelve quotes in their listed order. */
  function QuoteAt(i: int): Quote
    requires 0 <= i < QuoteCount
  {
    if i == 0 then Quote("The secret of getting ahead is getting started.", "Mark Twain")
    else if i == 1 then Quote("Success is the sum of small efforts, repeated day in and day out.", "Robert Collier")
    else if i == 2 then Quote("Education is the most powerful weapon which you can use to change the world.", "Nelson Mandela")
    else if i == 3 then Quote("The expert in anything was once a beginner.", "Helen Hayes")
    else if i == 4 then Quote("The beautiful thing about learning is that no one can take it away from you.", "B.B. King")
    else if i == 5 then Quote("Don't let what you cannot do interfere with what you can do.", "John Wooden")
    else if i == 6 then Quote("The only way to do great work is to love what you do.", "Steve Jobs")
    else if i == 7 then Quote("Believe you can and you're halfway there.", "Theodore Roosevelt")
    else if i == 8 then Quote("It does not matter how slowly you go as long as you do not stop.", "Confucius")
    else if i == 9 then Quote("The future belongs to those who believe in the beauty of their dreams.", "Eleanor Roosevelt")
    else if i == 10 then Quote("Learning is not attained by chance, it must be sought for with ardor.", "Abigail Adams")
    else Quote("Knowledge is power. Information is liberating.", "Kofi Annan")
  }

  /** `quotes.length`. */
  const QuoteCount: int := 12

  /** The `reduce` that sums the character codes of the date text. */
  function DayHash(date: string): (hash: nat)
    ensures forall i :: 0 <= i < |date| ==> hash >= date[i] as int
  {
    if date == [] then 0
    else
      var prefix := date[..|date| - 1];
      assert forall i :: 0 <= i < |prefix| ==> prefix[i] == date[i];
      DayHash(prefix) + date[|date| - 1] as int
  }

  /** `hash % quotes.length`. */
  function DayIndex(date: string): (i: int)
    ensures 0 <= i < QuoteCount
  {
    DayHash(date) % QuoteCount
  }

  /** `shuffleQuote`: the next quote, wrapping after the last. */
  function NextIndex(i: int): (j: int)
    ensures 0 <= j < QuoteCount
    ensures 0 <= i < QuoteCount - 1 ==> j == i + 1
    ensures i == QuoteCount - 1 ==> j == 0
  {
    (i + 1) % QuoteCount
  }

  class QuoteCardState {
    var quoteIndex: int

    predicate Valid()
      reads this
    {
      0 <= quoteIndex < QuoteCount
    }

    function CurrentQuote(): Quote
      reads this
      requires Valid()
    {
      QuoteAt(quoteIndex)
    }

    /** The card first renders quote 0, before the effect runs. */
    constructor ()
      ensures quoteIndex == 0 && Valid()
    {
      quoteIndex := 0;
    }

    /** The mount effect: pick the quote of the day. */
    method LoadDailyQuote(date: string)
      modifies this
      ensures quoteIndex == DayIndex(date) && Valid()
    {
      quoteIndex := DayHash(date) % 12;
    }

    method Shuffle()
      modifies this
      ensures quoteIndex == NextIndex(old(quoteIndex)) && Valid()
    {
      quoteIndex := (quoteIndex + 1) % 12;
    }
  }

  /** The hash of a text is the sum of the hashes of its parts. */
  lemma {:induction false} DayHashAppend(a: string, b: string)
    ensures DayHash(a + b) == DayHash(a) + DayHash(b)
    decreases |b|
  {
    if b == [] {
      assert a + b == a;
    } else {
      assert (a + b)[..|a + b| - 1] == a + b[..|b| - 1];
      DayHashAppend(a, b[..|b| - 1]);
    }
  }

  /** The hash ignores the order of the pieces, so texts made of the same pieces share a quote. */
  lemma SwappedPartsSameQuote(a: string, b: string)
    ensures DayIndex(a + b) == DayIndex(b + a)
  {
    DayHashAppend(a, b);
    DayHashAppend(b, a);
  }

  /** `k` presses of the shuffle button. */
  function Shuffled(i: int, k: nat): int
    decreases k
  {
    if k == 0 then i else NextIndex(Shuffled(i, k - 1))
  }

  /** After `k` presses the index has moved `k` places round the twelve. */
  lemma {:induction false} ShuffledPosition(i: int, k: nat)
    requires 0 <= i < QuoteCount
    ensures Shuffled(i, k) == (i + k) % QuoteCount
    decreases k
  {
    if k > 0 {
      ShuffledPosition(i, k - 1);
    }
  }

  /** Twelve more presses always come back to the same quote; from no presses, to the starting one. */
  lemma TwelvePressesReturn(i: int, k: nat)
    requires 0 <= i < QuoteCount
    ensures Shuffled(i, k + 12) == Shuffled(i, k)
    ensures Shuffled(i, 0) == i
  {
    ShuffledPosition(i, k);
    ShuffledPosition(i, k + 12);
    var m := i + k;
    assert (m + 12) % 12 == m % 12;
  }

  /** How many presses take quote `i` to quote `j`. */
  function PressesBetween(i: int, j: int): int {
    (j - i + 12) % 12
  }

  /** Within twelve presses every quote is shown. */
  lemma ShuffleVisitsAll(i: int)
    requires 0 <= i < QuoteCount
    ensures forall j :: 0 <= j < QuoteCount ==> 0 <= PressesBetween(i, j) < 12 && Shuffled(i, PressesBetween(i, j)) == j
  {
    forall j | 0 <= j < QuoteCount
      ensures Shuffled(i, PressesBetween(i, j)) == j
    {
      var k := PressesBetween(i, j);
      if i <= j {
        DivideByTwelve(j - i + 12, 1, j - i);
        ShuffledPosition(i, k);
        DivideByTwelve(j, 0, j);
      } else {
        DivideByTwelve(j - i + 12, 0, j - i + 12);
        ShuffledPosition(i, k);
        DivideByTwelve(j + 12, 1, j);
      }
    }
  }

  /** Counting the presses between the start and the quote reached gives back the number of presses. */
  lemma PressesBack(i: int, k: nat)
    requires 0 <= i < QuoteCount && k < 12
    ensures PressesBetween(i, Shuffled(i, k)) == k
  {
    ShuffledPosition(i, k);
    if i + k < 12 {
      DivideByTwelve(i + k, 0, i + k);
      DivideByTwelve(k + 12, 1, k);
    } else {
      DivideByTwelve(i + k, 1, i + k - 12);
      DivideByTwelve(k, 0, k);
    }
  }

  /** The remainder by twelve is the one of any split into twelves and a rest below twelve. */
  lemma DivideByTwelve(n: int, q: int, r: int)
    requires n == 12 * q + r && 0 <= r < 12
    ensures n % 12 == r
  {
  }

  /** Within twelve presses no quote is shown twice. */
  lemma ShuffleNoRepeat(i: int, k1: nat, k2: nat)
    requires 0 <= i < QuoteCount && k1 < k2 < 12
    ensures Shuffled(i, k1) != Shuffled(i, k2)
  {
    PressesBack(i, k1);
    PressesBack(i, k2);
  }
}
