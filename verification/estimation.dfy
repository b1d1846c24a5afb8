/** The estimate computed when the form is submitted.

    Exact fixed-point arithmetic replaces the page's floating point:
    - a length is a whole number of tenths of a banana (the input accepts
      non-negative steps of 0.1), and an empty input is None;
    - one event's weighted amount, length x 4 x cleanliness x shape, is in
      thousandths of a grid square (three factors in tenths);
    - multiplied by the paper factor it is in ten-thousandths, and rounding
      divides by 10000. */
module Estimation {
  import opened Wrappers
  import opened Weights

  /** One event of the day as the form holds it. */
  datatype Poop = Poop(length: Option<nat>, shape: string, cleanLevel: string)

  /** The three empty events the form starts with. */
  const DefaultPoops: seq<Poop> := [
    Poop(None, "條狀", "普通"),
    Poop(None, "條狀", "普通"),
    Poop(None, "條狀", "普通")
  ]

  /** One banana of length is counted as four grid squares. */
  const SquaresPerBanana: nat := 4

  /** What the submission reports. */
  datatype Estimate = Estimate(amount: int, unit: string, caption: Option<string>)

  /** The weighted amount of an event with a length, in thousandths of a
      grid square. */
  function Term(length: nat, shape: string, cleanLevel: string): (t: nat)
    ensures t == 0 <==> length == 0
    ensures length * 320 <= t <= length * 672
  {
    length * SquaresPerBanana * CleanFactor(cleanLevel) * ShapeFactor(shape)
  }

  /** What one event adds to the running total: nothing exactly when its
      length is empty or zero, otherwise between 3.2 and 6.72 squares per
      banana; it is the sum of the event's own weighted amounts. */
  function Contribution(p: Poop): (c: nat)
    ensures c == 0 <==> p.length.None? || p.length.value == 0
    ensures p.length.Some? ==> p.length.value * 320 <= c <= p.length.value * 672
    ensures c == Sum(Terms([p]))
  {
    match p.length
    case None => 0
    case Some(len) => Term(len, p.shape, p.cleanLevel)
  }

  /** The lengths entered, in tenths of a banana, added up over the events
      that have one. */
  function TotalLength(poops: seq<Poop>): nat {
    if poops == [] then 0
    else TotalLength(poops[..|poops| - 1]) + poops[|poops| - 1].length.GetOr(0)
  }

  /** The running total after every event of `poops`, taken in order: between
      3.2 and 6.72 grid squares per banana entered. */
  function TotalSquares(poops: seq<Poop>): (t: nat)
    ensures TotalLength(poops) * 320 <= t <= TotalLength(poops) * 672
  {
    if poops == [] then 0
    else TotalSquares(poops[..|poops| - 1]) + Contribution(poops[|poops| - 1])
  }

  /** The weighted amounts of the events that have a length, in order: the
      independent description of what the total sums. */
  function Terms(poops: seq<Poop>): seq<nat> {
    if poops == [] then []
    else
      (match poops[0].length
       case None => []
       case Some(len) => [Term(len, poops[0].shape, poops[0].cleanLevel)])
      + Terms(poops[1..])
  }

  function Sum(xs: seq<nat>): nat {
    if xs == [] then 0 else xs[0] + Sum(xs[1..])
  }

  /** Math.round of x / 10000: the nearest whole number, a tie going up. */
  function MathRound(x: int): (r: int)
    ensures r * 10000 - 5000 <= x < r * 10000 + 5000
    ensures x >= 0 ==> r >= 0
  {
    (x + 5000) / 10000
  }

  /** The amount shown to the user. */
  function FinalAmount(poops: seq<Poop>, paperType: string): (r: int)
    ensures r >= 0
    ensures r * 10000 - 5000 <= TotalSquares(poops) * PaperFactor(paperType) < r * 10000 + 5000
  {
    MathRound(TotalSquares(poops) * PaperFactor(paperType))
  }

  /** The submit handler: walks the events, accumulates the weighted amounts
      of the non-empty ones, applies the paper factor, rounds, and picks the
      unit noun and the paper label. */
  method HandleSubmit(poops: seq<Poop>, paperType: string) returns (est: Estimate)
    ensures est.amount == FinalAmount(poops, paperType)
    ensures est.unit == UnitNoun(paperType)
    ensures est.caption == PaperLabel(paperType)
  {
    var totalSquares := 0;
    var i := 0;
    while i < |poops|
      invariant 0 <= i <= |poops|
      invariant totalSquares == TotalSquares(poops[..i])
    {
      var poop := poops[i];
      if poop.length.Some? {
        var base := poop.length.value * SquaresPerBanana;
        var cleanFactor := CleanFactor(poop.cleanLevel);
        var shapeFactor := ShapeFactor(poop.shape);
        totalSquares := totalSquares + base * cleanFactor * shapeFactor;
      }
      assert poops[..i + 1][..i] == poops[..i];
      i := i + 1;
    }
    assert poops[..i] == poops;
    var factor := PaperFactor(paperType);
    var finalAmount := MathRound(totalSquares * factor);
    est := Estimate(finalAmount, UnitNoun(paperType), PaperLabel(paperType));
  }

  /** The rounded amount is the nearest whole number: no other whole number
      k is closer to x / 10000. */
  lemma MathRoundIsNearest(x: int, k: int)
    ensures var r := MathRound(x);
      (if x >= r * 10000 then x - r * 10000 else r * 10000 - x) <=
      (if x >= k * 10000 then x - k * 10000 else k * 10000 - x)
  {
  }

  /** The running total splits over a concatenation of event lists. */
  lemma {:induction false} TotalAppend(a: seq<Poop>, b: seq<Poop>)
    ensures TotalSquares(a + b) == TotalSquares(a) + TotalSquares(b)
  {
    if b != [] {
      var b' := b[..|b| - 1];
      assert (a + b)[..|a + b| - 1] == a + b';
      assert (a + b)[|a + b| - 1] == b[|b| - 1];
      TotalAppend(a, b');
    } else {
      assert a + b == a;
    }
  }

  /** The total equals the sum of the weighted amounts of the non-empty events. */
  lemma {:induction false} TotalIsSumOverFilled(poops: seq<Poop>)
    ensures TotalSquares(poops) == Sum(Terms(poops))
  {
    if poops != [] {
      var head := Terms([poops[0]]);
      assert poops == [poops[0]] + poops[1..];
      TotalAppend([poops[0]], poops[1..]);
      assert [poops[0]][..0] == [];
      assert TotalSquares([poops[0]]) == Contribution(poops[0]);
      TotalIsSumOverFilled(poops[1..]);
      assert [poops[0]][1..] == [] && Terms([]) == [];
      assert head == (match poops[0].length
                      case None => []
                      case Some(len) => [Term(len, poops[0].shape, poops[0].cleanLevel)]);
      assert Terms(poops) == head + Terms(poops[1..]);
      SumAppend(head, Terms(poops[1..]));
    }
  }

  lemma {:induction false} SumAppend(xs: seq<nat>, ys: seq<nat>)
    ensures Sum(xs + ys) == Sum(xs) + Sum(ys)
  {
    if xs != [] {
      assert (xs + ys)[1..] == xs[1..] + ys;
      SumAppend(xs[1..], ys);
    } else {
      assert xs + ys == ys;
    }
  }

  /** An event left empty changes nothing, wherever it stands in the list. */
  lemma EmptyPoopContributesNothing(before: seq<Poop>, p: Poop, after: seq<Poop>)
    requires p.length.None?
    ensures TotalSquares(before + [p] + after) == TotalSquares(before + after)
  {
    TotalAppend(before + [p], after);
    TotalAppend(before, [p]);
    assert [p][..0] == [];
    TotalAppend(before, after);
  }

  /** When every event is empty the total is zero. */
  lemma {:induction false} AllEmptyTotalZero(poops: seq<Poop>)
    requires forall i | 0 <= i < |poops| :: poops[i].length.None?
    ensures TotalSquares(poops) == 0
  {
    if poops != [] {
      AllEmptyTotalZero(poops[..|poops| - 1]);
    }
  }

  /** When every event is empty the amount is zero, whatever the paper type. */
  lemma AllEmptyAmountZero(poops: seq<Poop>, paperType: string)
    requires forall i | 0 <= i < |poops| :: poops[i].length.None?
    ensures FinalAmount(poops, paperType) == 0
  {
    AllEmptyTotalZero(poops);
  }

  /** Submitting the untouched form gives zero. */
  lemma DefaultPoopsGiveZero(paperType: string)
    ensures FinalAmount(DefaultPoops, paperType) == 0
  {
    AllEmptyAmountZero(DefaultPoops, paperType);
  }

  /** One event two bananas long, bar-shaped, normal cleanliness, on a roll:
      8 squares, times 1.2 is 9.6, which rounds to 10 squares of roll paper. */
  lemma WorkedExample()
    ensures TotalSquares([Poop(Some(20), "條狀", "普通")]) == 8000
    ensures FinalAmount([Poop(Some(20), "條狀", "普通")], "roll") == 10
  {
  }
}
