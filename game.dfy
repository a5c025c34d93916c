/**
 * One round of each game, from the random draws to the score writes
 * (`game1`, main.py:198-229, and `game2`, main.py:231-303). The draws of
 * `sample`, `choice`, `randint` and `random`, the downloaded price series and
 * the player's (already normalised) guess are parameters; charts, prompts and
 * company metadata are not modelled.
 */
module Game {
  import opened Wrappers
  import opened Errors
  import opened Selection
  import opened History
  import opened Movement
  import opened Scoring

  /** Draws of `random()` below this show the stock name; the rest are bonus rounds. */
  const RevealThreshold: real := 0.8

  /** Everything a game-2 round fixes before the guess is scored. */
  datatype PredictRound = PredictRound(
    candidates: Candidates,
    study: Window,
    eval: Window,
    studySlice: seq<PricePoint>,
    evalSlice: seq<PricePoint>,
    final: real,
    average: Option<real>,
    answer: Label,
    bonus: bool,
    revealName: bool)

  function Last(series: seq<PricePoint>): PricePoint
    requires series != []
  {
    series[|series| - 1]
  }

  /**
   * The ranges the random draws of a game-2 round come from: `sample` and
   * `choice` as for selection, `randint(0, k)` inclusive when `k >= 0`, and
   * `random()` in [0, 1).
   */
  predicate Game2Draws(stockList: seq<Ticker>, draw: seq<int>, pick: int, series: seq<PricePoint>, offset: int, bonusDraw: real) {
    && (|stockList| >= SampleSize ==> IsSample(draw, |stockList|))
    && 0 <= pick < SampleSize
    && (series != [] && Last(series).day - StudyDays - series[0].day >= 0 ==>
          0 <= offset <= Last(series).day - StudyDays - series[0].day)
    && 0.0 <= bonusDraw < 1.0
  }

  /**
   * Specification of game-2 round generation. It fails when the stock list has
   * fewer than four symbols, when the series is empty, when no start date can be
   * drawn (the silent return), and when the study window holds no price.
   */
  function PrepareGame2(stockList: seq<Ticker>, nseUniverse: seq<Ticker>, draw: seq<int>, pick: int,
                        series: seq<PricePoint>, offset: int, bonusDraw: real): (r: Result<PredictRound, GameError>)
    requires Sorted(series)
    requires Game2Draws(stockList, draw, pick, series, offset, bonusDraw)
    ensures (r.Err? && r.error == InsufficientUniverse) <==> |stockList| < SampleSize
    ensures (r.Err? && r.error == EmptyHistory) <==> |stockList| >= SampleSize && series == []
    ensures (r.Err? && r.error == InsufficientHistory) <==>
      |stockList| >= SampleSize && series != [] && Last(series).day - StudyDays < series[0].day
    ensures (r.Err? && r.error == EmptyStudyWindow) <==>
      && |stockList| >= SampleSize && series != [] && Last(series).day - StudyDays >= series[0].day
      && Slice(series, series[0].day + offset, series[0].day + offset + StudyDays) == []
    ensures r.Err? ==> r.error != GuessOutOfRange
    ensures r.Ok? ==>
      && r.value.candidates == SelectCandidates(stockList, nseUniverse, draw, pick).value
      && r.value.candidates.correct in r.value.candidates.options
      && r.value.study.start == series[0].day + offset
      && series[0].day <= r.value.study.start
      && r.value.study.end <= Last(series).day
      && r.value.study.end - r.value.study.start == StudyDays
      && r.value.eval.start == r.value.study.end + 1
      && r.value.eval.end - r.value.eval.start == EvalDays
      && r.value.studySlice == Slice(series, r.value.study.start, r.value.study.end)
      && r.value.evalSlice == Slice(series, r.value.eval.start, r.value.eval.end)
      && r.value.studySlice != []
      && FinalClose(r.value.studySlice) == Some(r.value.final)
      && r.value.studySlice + r.value.evalSlice == Slice(series, r.value.study.start, r.value.eval.end)
      && r.value.average == Mean(r.value.evalSlice)
      && r.value.answer == Classification(r.value.average, r.value.final)
      && r.value.bonus == (bonusDraw >= RevealThreshold)
      && r.value.revealName == !r.value.bonus
  {
    match SelectCandidates(stockList, nseUniverse, draw, pick)
    case Err(e) => Err(e)
    case Ok(candidates) =>
      if series == [] then Err(EmptyHistory)
      else
        match RandomStartDate(series[0].day, Last(series).day, offset)
        case None => Err(InsufficientHistory)
        case Some(start) =>
          var study := StudyWindow(start);
          var eval := EvalWindow(study);
          var studySlice := Slice(series, study.start, study.end);
          var evalSlice := Slice(series, eval.start, eval.end);
          var bonus := !(bonusDraw < RevealThreshold);
          match FinalClose(studySlice)
          case None => Err(EmptyStudyWindow)
          case Some(final) =>
            RoundSlicesCover(series, start);
            var average := Mean(evalSlice);
            Ok(PredictRound(candidates, study, eval, studySlice, evalSlice, final, average,
                            Classification(average, final), bonus, !bonus))
  }

  /** The writes a game-2 round issues, or the failure that ends it without one. */
  function Game2Outcome(stockList: seq<Ticker>, nseUniverse: seq<Ticker>, draw: seq<int>, pick: int,
                        series: seq<PricePoint>, offset: int, bonusDraw: real, guess: string): (r: Result<seq<int>, GameError>)
    requires Sorted(series)
    requires Game2Draws(stockList, draw, pick, series, offset, bonusDraw)
    ensures r.Ok? <==> PrepareGame2(stockList, nseUniverse, draw, pick, series, offset, bonusDraw).Ok?
    ensures r.Ok? ==> 1 <= |r.value| <= 2 && Total(r.value) in {0, 10, 15}
    ensures r.Ok? ==>
      var round := PrepareGame2(stockList, nseUniverse, draw, pick, series, offset, bonusDraw).value;
      && (Total(r.value) > 0 <==> guess == Text(round.answer))
      && (Total(r.value) == 15 <==> guess == Text(round.answer) && round.bonus)
      && (guess != Text(round.answer) ==> r.value == [WrongPoints])
      && (guess == Text(round.answer) ==> r.value[0] == CorrectPoints)
      && (|r.value| == 2 <==> guess == Text(round.answer) && round.bonus)
      && (|r.value| == 2 ==> r.value[1] == BonusPoints)
  {
    match PrepareGame2(stockList, nseUniverse, draw, pick, series, offset, bonusDraw)
    case Err(e) => Err(e)
    case Ok(round) => Ok(Game2Writes(guess, round.answer, round.bonus))
  }

  /**
   * A series that spans less than three years never yields a round, whatever
   * the draws: game 2 returns and writes no score.
   */
  lemma ShortHistoryNeverScores(stockList: seq<Ticker>, nseUniverse: seq<Ticker>, draw: seq<int>, pick: int,
                                series: seq<PricePoint>, offset: int, bonusDraw: real, guess: string)
    requires Sorted(series) && Game2Draws(stockList, draw, pick, series, offset, bonusDraw)
    requires |stockList| >= SampleSize && series != [] && Last(series).day - series[0].day < StudyDays
    ensures Game2Outcome(stockList, nseUniverse, draw, pick, series, offset, bonusDraw, guess) == Err(InsufficientHistory)
  {
  }

  /**
   * The latest start date is only three years before the last price, so the
   * round is generated, but its evaluation year lies wholly after the data:
   * the average is NaN and the answer is always "down".
   */
  lemma LatestStartAnswersDown(stockList: seq<Ticker>, nseUniverse: seq<Ticker>, draw: seq<int>, pick: int,
                               series: seq<PricePoint>, offset: int, bonusDraw: real)
    requires Sorted(series) && Game2Draws(stockList, draw, pick, series, offset, bonusDraw)
    requires |stockList| >= SampleSize
    requires series != [] && offset == Last(series).day - StudyDays - series[0].day >= 0
    ensures var r := PrepareGame2(stockList, nseUniverse, draw, pick, series, offset, bonusDraw);
      r.Ok? && r.value.evalSlice == [] && r.value.average.None? && r.value.answer == Down
  {
    var start := Last(series).day - StudyDays;
    var study := StudyWindow(start);
    var eval := EvalWindow(study);
    SliceMembers(series, study.start, study.end);
    assert Last(series) in Slice(series, study.start, study.end);
    forall i | 0 <= i < |series| ensures series[i].day < eval.start {
      if i < |series| - 1 {
        assert series[i].day < Last(series).day;
      }
    }
    SliceAfterDataEmpty(series, eval.start, eval.end);
  }

  /**
   * When every close of the evaluation year is above 1.3 times the final close,
   * the answer is "up a lot"; when every one is below 0.7 times it, "down a lot".
   */
  lemma EvaluationYearDecides(round: PredictRound)
    requires round.average == Mean(round.evalSlice)
    requires round.answer == Classification(round.average, round.final)
    requires round.evalSlice != []
    ensures (forall i :: 0 <= i < |round.evalSlice| ==> round.evalSlice[i].close > round.final * 1.3) ==>
      round.answer == UpALot
    ensures (forall i :: 0 <= i < |round.evalSlice| ==> round.evalSlice[i].close < round.final * 0.7) ==>
      round.final >= 0.0 ==> round.answer == DownALot
  {
    if forall i :: 0 <= i < |round.evalSlice| ==> round.evalSlice[i].close > round.final * 1.3 {
      MeanAbove(round.evalSlice, round.final * 1.3);
    }
    if forall i :: 0 <= i < |round.evalSlice| ==> round.evalSlice[i].close < round.final * 0.7 {
      MeanBelow(round.evalSlice, round.final * 0.7);
    }
  }

  /** A final close of 100, an evaluation average of 140 and a bonus round: "up a lot" scores 15. */
  lemma BonusUpALotScenario()
    ensures Total(Game2Writes("up a lot", Classification(Some(140.0), 100.0), true)) == 15
  {
  }

  /** The writes a game-1 round issues, or the failure that ends it without one. */
  function Game1Outcome(stockList: seq<Ticker>, nseUniverse: seq<Ticker>, draw: seq<int>, pick: int, guess: int)
    : (r: Result<seq<int>, GameError>)
    requires |stockList| >= SampleSize ==> IsSample(draw, |stockList|)
    requires 0 <= pick < SampleSize
    ensures r.Ok? <==> |stockList| >= SampleSize && -3 <= guess <= 4
    ensures r.Ok? ==> |r.value| == 1 && Total(r.value) in {0, 10}
    ensures r.Ok? ==>
      var c := SelectCandidates(stockList, nseUniverse, draw, pick).value;
      (r.value == [CorrectPoints] <==> c.options[PyIndex(SampleSize, guess - 1).value] == c.correct)
  {
    match SelectCandidates(stockList, nseUniverse, draw, pick)
    case Err(e) => Err(e)
    case Ok(c) => Game1Writes(c.options, c.correct, guess)
  }

  /**
   * From a list without repeats, exactly one guess number among 1 to 4 scores
   * 10: the position of the correct ticker plus one.
   */
  lemma Game1WinningGuess(stockList: seq<Ticker>, nseUniverse: seq<Ticker>, draw: seq<int>, pick: int, guess: int)
    requires |stockList| >= SampleSize && IsSample(draw, |stockList|) && NoDuplicates(stockList)
    requires 0 <= pick < SampleSize && 1 <= guess <= SampleSize
    ensures Game1Outcome(stockList, nseUniverse, draw, pick, guess) == Ok([CorrectPoints]) <==> guess == pick + 1
  {
    SelectionDistinct(stockList, nseUniverse, draw, pick);
    var c := SelectCandidates(stockList, nseUniverse, draw, pick).value;
    Game1OneWinningGuess(c.options, pick, guess);
  }

  /**
   * Five symbols A to E, the draw A, B, C, D with B correct: guessing option 2
   * scores 10 and guessing option 1 scores 0.
   */
  lemma IdentifyScenario()
    ensures Game1Outcome(["A", "B", "C", "D", "E"], [], [0, 1, 2, 3], 1, 2) == Ok([CorrectPoints])
    ensures Game1Outcome(["A", "B", "C", "D", "E"], [], [0, 1, 2, 3], 1, 1) == Ok([WrongPoints])
  {
    var c := SelectCandidates(["A", "B", "C", "D", "E"], [], [0, 1, 2, 3], 1).value;
    assert c.options == ["A", "B", "C", "D"];
  }

  /** `game1`: select, take the guess, and issue its single score write. */
  method PlayGame1(board: ScoreBoard, user: UserId, stockList: seq<Ticker>, nseUniverse: seq<Ticker>,
                   draw: seq<int>, pick: int, guess: int) returns (outcome: Result<seq<int>, GameError>)
    requires board.Valid() && user in board.scores
    requires |stockList| >= SampleSize ==> IsSample(draw, |stockList|)
    requires 0 <= pick < SampleSize
    modifies board
    ensures board.Valid()
    ensures outcome == Game1Outcome(stockList, nseUniverse, draw, pick, guess)
    ensures Recorded(old(board.scores), old(board.rows), board.scores, board.rows, user, Game1, outcome)
  {
    var selection := SelectCandidates(stockList, nseUniverse, draw, pick);
    if selection.Err? {
      return Err(selection.error);
    }
    var options, correct := selection.value.options, selection.value.correct;
    var index := PyIndex(|options|, guess - 1);
    if index.None? {
      return Err(GuessOutOfRange);
    }
    var recorded := board.UpdateScore(user, Game1, if options[index.value] == correct then CorrectPoints else WrongPoints);
    assert recorded;  // the player is registered, so the write goes through
    if options[index.value] == correct {
      outcome := Ok([CorrectPoints]);
    } else {
      outcome := Ok([WrongPoints]);
    }
  }

  /**
   * Round generation of `game2`: select, sample the windows, slice and average,
   * decide the bonus, and classify the evaluation year, stopping at the first
   * failure.
   */
  method GenerateGame2(stockList: seq<Ticker>, nseUniverse: seq<Ticker>, draw: seq<int>, pick: int,
                       series: seq<PricePoint>, offset: int, bonusDraw: real)
    returns (round: Result<PredictRound, GameError>)
    requires Sorted(series)
    requires Game2Draws(stockList, draw, pick, series, offset, bonusDraw)
    ensures round == PrepareGame2(stockList, nseUniverse, draw, pick, series, offset, bonusDraw)
  {
    var selection := SelectCandidates(stockList, nseUniverse, draw, pick);
    if selection.Err? {
      return Err(selection.error);
    }
    if series == [] {
      return Err(EmptyHistory);
    }
    var start := RandomStartDate(series[0].day, Last(series).day, offset);
    if start.None? {
      return Err(InsufficientHistory);
    }
    var study := StudyWindow(start.value);
    var studySlice := Slice(series, study.start, study.end);
    var eval := EvalWindow(study);
    var evalSlice := Slice(series, eval.start, eval.end);
    var average := Mean(evalSlice);
    var bonus := false;
    if !(bonusDraw < RevealThreshold) {
      bonus := true;
    }
    var final := FinalClose(studySlice);
    if final.None? {
      return Err(EmptyStudyWindow);
    }
    var answer := Classify(average, final.value);
    round := Ok(PredictRound(selection.value, study, eval, studySlice, evalSlice, final.value, average, answer, bonus, !bonus));
  }

  /** `game2`: generate the round, then issue the score writes for the guess in order. */
  method PlayGame2(board: ScoreBoard, user: UserId, stockList: seq<Ticker>, nseUniverse: seq<Ticker>,
                   draw: seq<int>, pick: int, series: seq<PricePoint>, offset: int, bonusDraw: real, guess: string)
    returns (outcome: Result<seq<int>, GameError>)
    requires board.Valid() && user in board.scores
    requires Sorted(series)
    requires Game2Draws(stockList, draw, pick, series, offset, bonusDraw)
    modifies board
    ensures board.Valid()
    ensures outcome == Game2Outcome(stockList, nseUniverse, draw, pick, series, offset, bonusDraw, guess)
    ensures Recorded(old(board.scores), old(board.rows), board.scores, board.rows, user, Game2, outcome)
  {
    var round := GenerateGame2(stockList, nseUniverse, draw, pick, series, offset, bonusDraw);
    if round.Err? {
      return Err(round.error);
    }
    var writes := ScoreGame2(board, user, guess, round.value.answer, round.value.bonus);
    outcome := Ok(writes);
  }

  /** The scoring branch of `game2`: the `update_score` calls for one guess, in order. */
  method ScoreGame2(board: ScoreBoard, user: UserId, guess: string, answer: Label, bonus: bool)
    returns (writes: seq<int>)
    requires board.Valid() && user in board.scores
    modifies board
    ensures board.Valid()
    ensures writes == Game2Writes(guess, answer, bonus)
    ensures Recorded(old(board.scores), old(board.rows), board.scores, board.rows, user, Game2, Ok(writes))
  {
    var recorded: bool;
    if guess == Text(answer) {
      recorded := board.UpdateScore(user, Game2, CorrectPoints);
      assert recorded;  // the player is registered, so the write goes through
      if bonus {
        recorded := board.UpdateScore(user, Game2, BonusPoints);
        assert recorded;
        writes := [CorrectPoints, BonusPoints];
      } else {
        writes := [CorrectPoints];
      }
    } else {
      recorded := board.UpdateScore(user, Game2, WrongPoints);
      assert recorded;
      writes := [WrongPoints];
    }
  }
}
