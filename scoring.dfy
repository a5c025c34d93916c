/**
 * Scoring of both games and the score store. `update_score` (main.py:130-138)
 * adds the points to the user's running score (`users.score`) and appends one
 * row to the `scores` table; here both tables live in one object.
 */
module Scoring {
  import opened Wrappers
  import opened Errors
  import opened Selection
  import opened Movement

  /** The `game_type` column: 'game1' or 'game2'. */
  datatype GameType = Game1 | Game2

  type UserId = int

  /** One row of the `scores` table; the timestamp is not modelled. */
  datatype ScoreRow = ScoreRow(user: UserId, game: GameType, points: int)

  const CorrectPoints: int := 10
  const BonusPoints: int := 5
  const WrongPoints: int := 0

  /** Sum of a list of point writes. */
  function Total(points: seq<int>): int {
    if points == [] then 0 else points[0] + Total(points[1..])
  }

  /** The running score a user's rows add up to. */
  function UserTotal(rows: seq<ScoreRow>, user: UserId): int {
    if rows == [] then 0
    else (if rows[0].user == user then rows[0].points else 0) + UserTotal(rows[1..], user)
  }

  /** Appending a row changes its own user's total by its points and no other user's. */
  lemma {:induction false} UserTotalAppend(rows: seq<ScoreRow>, row: ScoreRow, user: UserId)
    ensures UserTotal(rows + [row], user) == UserTotal(rows, user) + (if row.user == user then row.points else 0)
  {
    if rows != [] {
      assert (rows + [row])[1..] == rows[1..] + [row];
      UserTotalAppend(rows[1..], row, user);
    }
  }

  /** The rows a sequence of `update_score` calls for one user and game appends. */
  function Rows(user: UserId, game: GameType, points: seq<int>): seq<ScoreRow> {
    seq(|points|, i requires 0 <= i < |points| => ScoreRow(user, game, points[i]))
  }

  /**
   * The score store went from (`scores`, `rows`) to (`scores'`, `rows'`) by a
   * round with this outcome: a played round appended one row per write, in
   * order, and added their total to the user's score; a failed round changed
   * nothing.
   */
  ghost predicate Recorded(scores: map<UserId, int>, rows: seq<ScoreRow>, scores': map<UserId, int>, rows': seq<ScoreRow>,
                           user: UserId, game: GameType, outcome: Result<seq<int>, GameError>)
  {
    match outcome
    case Ok(points) =>
      && user in scores
      && rows' == rows + Rows(user, game, points)
      && scores' == scores[user := scores[user] + Total(points)]
    case Err(_) => rows' == rows && scores' == scores
  }

  /** Python list indexing `xs[i]` on a list of length n; `None` where it raises IndexError. */
  function PyIndex(n: nat, i: int): (r: Option<nat>)
    ensures r.Some? <==> -(n as int) <= i < n
    ensures r.Some? ==> r.value < n && (r.value as int - i) % n == 0
  {
    if 0 <= i < n then Some(i)
    else if -(n as int) <= i < 0 then Some(n + i)
    else None
  }

  /**
   * The writes game 1 issues for guess number `guess`: a single write, 10 when
   * `selected_stocks[guess - 1]` is the correct ticker and 0 otherwise. Guesses
   * that Python cannot index with end the round with no write.
   */
  function Game1Writes(options: seq<Ticker>, correct: Ticker, guess: int): (r: Result<seq<int>, GameError>)
    requires |options| == SampleSize
    ensures r.Ok? <==> -3 <= guess <= 4
    ensures r.Err? ==> r.error == GuessOutOfRange
    ensures r.Ok? ==> |r.value| == 1 && (r.value[0] == CorrectPoints || r.value[0] == WrongPoints)
  {
    match PyIndex(|options|, guess - 1)
    case None => Err(GuessOutOfRange)
    case Some(k) => Ok(if options[k] == correct then [CorrectPoints] else [WrongPoints])
  }

  /** A guess numbered 1 to 4 scores 10 exactly when that option is the correct ticker. */
  lemma Game1Scoring(options: seq<Ticker>, correct: Ticker, guess: int)
    requires |options| == SampleSize && 1 <= guess <= SampleSize
    ensures Game1Writes(options, correct, guess) == Ok([if options[guess - 1] == correct then CorrectPoints else WrongPoints])
  {
  }

  /** Guess number 0 wraps round to the last option, as Python's index -1 does. */
  lemma Game1ZeroGuess(options: seq<Ticker>, correct: Ticker)
    requires |options| == SampleSize
    ensures Game1Writes(options, correct, 0) == Ok([if options[3] == correct then CorrectPoints else WrongPoints])
  {
  }

  /** With distinct options, exactly one guess number among 1 to 4 wins: the correct one's. */
  lemma Game1OneWinningGuess(options: seq<Ticker>, pick: int, guess: int)
    requires |options| == SampleSize && NoDuplicates(options) && 0 <= pick < SampleSize
    requires 1 <= guess <= SampleSize
    ensures Game1Writes(options, options[pick], guess) == Ok([CorrectPoints]) <==> guess == pick + 1
  {
  }

  /**
   * The writes game 2 issues: 10 for a correct label, followed by a separate 5
   * on a bonus round; a single 0 for any wrong label, bonus or not.
   */
  function Game2Writes(guess: string, answer: Label, bonus: bool): (r: seq<int>)
    ensures 1 <= |r| <= 2
    ensures Total(r) == if guess == Text(answer) then (if bonus then 15 else 10) else 0
    ensures guess != Text(answer) ==> r == [WrongPoints]
    ensures |r| == 2 <==> guess == Text(answer) && bonus
    ensures guess == Text(answer) ==> r[0] == CorrectPoints
    ensures |r| == 2 ==> r[1] == BonusPoints
  {
    if guess == Text(answer) then
      if bonus then
        assert Total([BonusPoints]) == BonusPoints by {
          assert [BonusPoints][1..] == [];
        }
        assert [CorrectPoints, BonusPoints][1..] == [BonusPoints];
        [CorrectPoints, BonusPoints]
      else [CorrectPoints]
    else [WrongPoints]
  }

  /** No partial credit: naming any other label, even a neighbouring one, scores 0. */
  lemma NoPartialCredit(guessed: Label, answer: Label, bonus: bool)
    requires guessed != answer
    ensures Game2Writes(Text(guessed), answer, bonus) == [WrongPoints]
  {
  }

  /**
   * The score store. `scores` is the `users.score` column of each registered
   * user, `rows` the `scores` table in insertion order.
   */
  class ScoreBoard {
    var scores: map<UserId, int>
    var rows: seq<ScoreRow>

    /** Every user's score is the sum of their rows, and every row belongs to a user. */
    ghost predicate Valid()
      reads this
    {
      && (forall u :: u in scores ==> scores[u] == UserTotal(rows, u))
      && (forall i :: 0 <= i < |rows| ==> rows[i].user in scores)
    }

    /** Registered users start from the column default 0, with no rows. */
    constructor (users: set<UserId>)
      ensures Valid()
      ensures scores == map u | u in users :: 0
      ensures rows == []
    {
      scores := map u | u in users :: 0;
      rows := [];
    }

    /**
     * `update_score`: the user's score grows by `points` and exactly one row
     * with the same points is appended. For an unknown user the row's foreign
     * key is rejected and nothing changes (`ok` is false).
     */
    method UpdateScore(user: UserId, game: GameType, points: int) returns (ok: bool)
      requires Valid()
      modifies this
      ensures Valid()
      ensures ok <==> user in old(scores)
      ensures ok ==> scores == old(scores)[user := old(scores)[user] + points]
      ensures ok ==> rows == old(rows) + [ScoreRow(user, game, points)]
      ensures !ok ==> scores == old(scores) && rows == old(rows)
    {
      ok := user in scores;
      if ok {
        var row := ScoreRow(user, game, points);
        forall u | u in scores
          ensures UserTotal(rows + [row], u) == UserTotal(rows, u) + (if u == user then points else 0)
        {
          UserTotalAppend(rows, row, u);
        }
        scores := scores[user := scores[user] + points];
        rows := rows + [row];
      }
    }
  }
}
