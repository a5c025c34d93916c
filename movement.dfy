/**
 * The movement classifier of game 2 (main.py:284-293). Prices are exact reals,
 * so the 1.3 and 0.7 thresholds carry no rounding; the average is `None` when
 * the evaluation slice is empty, where pandas yields NaN and every comparison
 * with it is false.
 */
module Movement {
  import opened Wrappers

  datatype Label = Up | Down | UpALot | DownALot

  /**
   * The answer strings the player's normalised guess is compared with: the
   * upward labels begin with "up", and the strong ones end with " a lot".
   */
  function Text(l: Label): (r: string)
    ensures |r| >= 2
    ensures (l == Up || l == UpALot) <==> r[..2] == "up"
    ensures (l == UpALot || l == DownALot) <==> |r| >= 6 && r[|r| - 6..] == " a lot"
  {
    match l
    case Up => "up"
    case Down =>
      assert "down"[..2][0] == 'd';
      "down"
    case UpALot => "up a lot"
    case DownALot =>
      assert "down a lot"[..2][0] == 'd';
      "down a lot"
  }

  lemma TextInjective(a: Label, b: Label)
    requires Text(a) == Text(b)
    ensures a == b
  {
  }

  /**
   * Reference definition of the label: the override rules in priority order.
   * The "up a lot" override wins over "down a lot", which wins over the base
   * up/down decision; with no average the label is "down".
   */
  function Classification(average: Option<real>, final: real): (r: Label)
    ensures average.None? ==> r == Down
    ensures r == UpALot <==> average.Some? && average.value > final * 1.3
    ensures r == DownALot <==> average.Some? && !(average.value > final * 1.3) && average.value < final * 0.7
    ensures (r == Up || r == Down) ==> (r == Up <==> average.Some? && average.value > final)
  {
    match average
    case None => Down
    case Some(avg) =>
      if avg > final * 1.3 then UpALot
      else if avg < final * 0.7 then DownALot
      else if avg > final then Up
      else Down
  }

  /** The source's sequential reassignment of `correct_answer`. */
  method Classify(average: Option<real>, final: real) returns (answer: Label)
    ensures answer == Classification(average, final)
  {
    // NaN compares false with everything, so `None` takes no branch.
    if average.Some? && average.value > final {
      answer := Up;
    } else {
      answer := Down;
    }
    if average.Some? && average.value > final * 1.3 {
      answer := UpALot;
    } else if average.Some? && average.value < final * 0.7 {
      answer := DownALot;
    }
  }

  /**
   * For a positive final price the four labels are four disjoint bands of the
   * average: above 1.3x, above 1x up to 1.3x, from 0.7x up to 1x (equality
   * included), and below 0.7x.
   */
  lemma ClassificationBands(avg: real, final: real)
    requires final > 0.0
    ensures Classification(Some(avg), final) == UpALot <==> avg > final * 1.3
    ensures Classification(Some(avg), final) == Up <==> final < avg <= final * 1.3
    ensures Classification(Some(avg), final) == Down <==> final * 0.7 <= avg <= final
    ensures Classification(Some(avg), final) == DownALot <==> avg < final * 0.7
  {
  }

  /**
   * For a negative final price the override order matters: an average between
   * 1.3x and 1x of the price is below it, yet is labelled "up a lot".
   */
  lemma OverrideOrderMatters()
    ensures Classification(Some(-11.0), -10.0) == UpALot
  {
  }

  /** Worked cases: 135/100 up a lot, 110/100 up, 100/100 down, 90/100 down, 65/100 down a lot. */
  lemma ClassificationExamples()
    ensures Classification(Some(135.0), 100.0) == UpALot
    ensures Classification(Some(110.0), 100.0) == Up
    ensures Classification(Some(100.0), 100.0) == Down
    ensures Classification(Some(90.0), 100.0) == Down
    ensures Classification(Some(65.0), 100.0) == DownALot
    ensures Classification(None, 100.0) == Down
  {
  }
}
