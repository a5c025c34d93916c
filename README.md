# Stock market quiz: round generation and scoring

A Dafny model of the game engine of a command-line stock quiz. In game 1 the
player sees a three-year price chart and picks the stock from four candidates.
In game 2 the player sees a random three-year window of a stock's history and
guesses how the price moves over the following year: "up", "down", "up a lot"
or "down a lot". Some game-2 rounds are bonus rounds that hide the stock name
and pay 5 extra points. Every scored round is written to a score store. The
store keeps a running score per user and one row per write.

The model covers:

- candidate selection: four distinct sampled symbols, the ".NS" qualifier for the NSE universe, and the correct ticker;
- window sampling: the random start date, the three-year study window and the one-year evaluation window, label-based inclusive slicing, the mean, and the final close;
- the movement classifier, with its sequential override;
- the bonus decision;
- the score writes of both games;
- the score store's increment-and-append effect.

Modules, one per component:

- `Wrappers` (wrappers.dfy): `Option` and `Result`.
- `Errors` (errors.dfy): the ways a round ends without a score.
- `Selection` (selection.dfy): tickers, the sample draw and candidate selection.
- `History` (history.dfy): price points as (day number, close), start-date sampling, windows, slices, the mean and the final close.
- `Movement` (movement.dfy): the four labels, their answer strings, the reference classification and the imperative classifier.
- `Scoring` (scoring.dfy): the point writes of each game, the `ScoreBoard` class that holds the score column and the scores table, and `Recorded`, the effect of a round's writes on the store.
- `Game` (game.dfy): a whole round of each game. Each round is written as a specification function and as an imperative method; the methods generate the round and update the board.

Randomness is passed in as parameters:

- `draw`: the four distinct positions `sample` returns;
- `pick`: the position `choice` returns;
- `offset`: the value of `randint(0, k)`;
- `bonusDraw`: the value of `random()`.

The downloaded price series and the player's normalised guess are parameters too. Dates are integer day numbers, and prices are exact reals.

Behaviour of the code that the model keeps:

- A round is a bonus round when the draw of `random()` is 0.8 or more (main.py:273-278).
- The latest start date is exactly three years before the last price (main.py:248). No room is kept for the evaluation year. The evaluation year of a start less than one year before that latest start runs partly past the data, and its slice holds only the prices up to the last one. At the latest start, the evaluation year lies wholly past the data. Its slice is then empty, its mean is NaN, and the answer is always "down" (`Game.LatestStartAnswersDown`).
- When no start date can be drawn, `game2` returns silently (main.py:261-262). The model reports this as `InsufficientHistory` and writes no score.
- An empty series and an empty study window raise `IndexError` (main.py:243 and main.py:284). The model reports them as `EmptyHistory` and `EmptyStudyWindow`, with no score written.
- Game 1 indexes the options with the guess as Python does. Guess 0 selects the last option, guesses -3 to -1 select from the end, and any other value outside 1..4 raises `IndexError` (`GuessOutOfRange`).

## Model

| member | source | states |
|---|---|---|
| Selection.Qualify | main.py:200 | the comprehension keeps the length; each entry is its symbol followed by ".NS"; a list without repeats stays without repeats |
| Selection.SelectCandidates | main.py:199-205 | fails with InsufficientUniverse exactly when the list has fewer than 4 symbols (sample raises); otherwise 4 options, with the correct ticker being the option at the chosen position |
| Selection.SuffixInjective | main.py:200 | appending ".NS" never makes two different symbols equal |
| Selection.SelectionNaming | main.py:232-238 | each option is the symbol drawn at that position, with ".NS" appended exactly when the list is the NSE universe; the correct ticker is named the same way, and for other lists it comes from the list |
| Selection.SelectionDistinct | main.py:199-205 | from a list without repeats, the four options are pairwise distinct and the correct ticker matches exactly one position |
| History.RandomStartDate | main.py:247-257 | a start date exists iff first <= last - 1095, and then it lies in [first, last - 1095], so the study window ends by the last price; otherwise None |
| History.StudyWindow | main.py:264 | the study window begins at the start and spans 1095 days; a day is in it iff it lies in start..start+1095 |
| History.EvalWindow | main.py:268-269 | the evaluation window begins the day after the study window, spans 365 days, and shares no day with it |
| History.WindowsAdjacent | main.py:264-269 | study window spans 1095 days, evaluation window starts the next day and spans 365 days, no day lies in both, and together they cover exactly start..start+1461 |
| History.Slice | main.py:266 | the label slice is never longer than the series, and an empty range yields an empty slice |
| History.SliceMembers | main.py:270 | a label slice keeps exactly the series points whose day lies in the inclusive range |
| History.SliceSorted | main.py:270 | a slice of a date-sorted series is date-sorted |
| History.SliceAfterDataEmpty | main.py:270 | a range entirely after the last price gives an empty slice |
| History.SliceBeforeDataEmpty | main.py:266 | a range entirely before the first price gives an empty slice |
| History.SliceSameRange | main.py:266 | two ranges that admit the same points give the same slice |
| History.SliceSplit | main.py:266-270 | on a sorted series, slicing [lo, mid] and [mid+1, hi] and concatenating gives the slice of [lo, hi]: nothing lost, nothing repeated |
| History.RoundSlicesCover | main.py:264-270 | the study slice followed by the evaluation slice is the slice of both windows together |
| History.Mean | main.py:271 | the mean is None (NaN) exactly when the evaluation slice is empty |
| History.SumAbove | main.py:271 | if every close exceeds x, the sum of n closes exceeds n*x |
| History.SumBelow | main.py:271 | if every close is below x, the sum of n closes is below n*x |
| History.MeanAbove | main.py:271 | if every close of a non-empty slice exceeds x, so does the mean |
| History.MeanBelow | main.py:271 | if every close of a non-empty slice is below x, so is the mean |
| History.FinalClose | main.py:284 | the final close is missing (IndexError) exactly when the study slice is empty |
| History.FinalCloseIsLatest | main.py:284 | on a sorted series the final close belongs to a point inside the window, and no point inside the window is later |
| Movement.Text | main.py:286-293 | the answer strings of the upward labels begin with "up", and those of the strong labels end with " a lot" |
| Movement.TextInjective | main.py:286-293 | the four answer strings are distinct |
| Movement.Classification | main.py:285-293 | NaN gives down; up a lot iff the average exceeds 1.3x the final price; down a lot iff it does not and is below 0.7x; otherwise up iff the average exceeds the final price |
| Movement.Classify | main.py:284-293 | the sequential assign-then-override yields the reference classification: up a lot above 1.3x, else down a lot below 0.7x, else up above 1x, else down; NaN gives down |
| Movement.ClassificationBands | main.py:285-293 | for a positive final price each label holds iff the average lies in its band: > 1.3x; (1x, 1.3x]; [0.7x, 1x] with equality giving down; < 0.7x |
| Movement.OverrideOrderMatters | main.py:290-291 | for a negative final price the override gives "up a lot" to an average that is below the final price |
| Movement.ClassificationExamples | main.py:285-293 | 135/100 up a lot, 110/100 up, 100/100 down, 90/100 down, 65/100 down a lot, NaN down |
| Scoring.UserTotalAppend | main.py:133-135 | appending a row raises its own user's sum of rows by its points and leaves every other user's sum unchanged |
| Scoring.PyIndex | main.py:223 | Python indexing succeeds iff -n <= i < n, and then selects a position below n congruent to i modulo n |
| Scoring.Game1Writes | main.py:223-229 | a game-1 round writes exactly one score, 10 or 0, when Python can index the options with guess - 1 (guess in -3..4); otherwise GuessOutOfRange and nothing |
| Scoring.Game1Scoring | main.py:223-229 | for guess 1..4, the single write is 10 iff option guess-1 is the correct ticker, else 0 |
| Scoring.Game1ZeroGuess | main.py:223 | guess 0 is scored against the last option (Python index -1) |
| Scoring.Game1OneWinningGuess | main.py:223-225 | with distinct options, guess g in 1..4 scores 10 iff g is the correct ticker's position plus one |
| Scoring.Game2Writes | main.py:295-303 | one or two writes; total 15 for a correct bonus guess, 10 for a correct guess, 0 otherwise; a wrong guess is the single write 0; a correct guess writes 10 first; two writes exactly on a correct bonus guess, the second being the separate 5 |
| Scoring.NoPartialCredit | main.py:295-303 | guessing any label other than the answer, even a neighbouring one, writes a single 0 |
| Scoring.ScoreBoard.constructor | main.py:35-50 | registered users start with score 0 and there are no rows; the board invariant holds |
| Scoring.ScoreBoard.UpdateScore | main.py:130-138 | adds the points to the user's score and appends exactly one row with the same user, game and points; it keeps every score equal to the sum of that user's rows; an unknown user changes nothing |
| Game.PrepareGame2 | main.py:231-293 | fails with InsufficientUniverse, EmptyHistory, InsufficientHistory or EmptyStudyWindow exactly in their cases, and never otherwise. A round that is produced holds: the selected candidates; the study window starting at first + offset, inside the data and 1095 days long; the evaluation window from the next day, 365 days long; the two label slices of those windows, which together make the slice of both; the evaluation mean; the last close of the study slice as the final price; the answer classified from those two; bonus iff random() >= 0.8; and the name hidden exactly on bonus rounds |
| Game.Game2Outcome | main.py:259-303 | a game-2 round writes iff it is generated; it then issues 1 or 2 writes; the total is positive iff the guess is the answer's text and 15 iff it is also a bonus round; a wrong guess writes a single 0; a correct guess writes 10 first, and a second write, the 5, happens exactly on a correct bonus round |
| Game.ShortHistoryNeverScores | main.py:247-262 | a series spanning less than 1095 days ends every game-2 round with InsufficientHistory and no write, whatever the draws |
| Game.LatestStartAnswersDown | main.py:248-271 | with a 4-symbol list and the latest start date the round is generated (the last price lies in the study window), but the evaluation year lies wholly after the data, so the evaluation slice is empty, the mean is NaN and the answer is "down" |
| Game.EvaluationYearDecides | main.py:271-293 | if every evaluation close exceeds 1.3x the final close the answer is "up a lot"; if every one is below 0.7x a non-negative final close, "down a lot" |
| Game.BonusUpALotScenario | main.py:290-300 | final close 100, average 140, bonus round, guess "up a lot": 15 points |
| Game.Game1Outcome | main.py:198-229 | a game-1 round writes iff the list has at least 4 symbols and the guess is indexable; it then issues one write, which is 10 iff the option that Python indexes with guess - 1 is the correct ticker, else 0 |
| Game.Game1WinningGuess | main.py:199-225 | from a list without repeats, exactly one guess among 1..4 scores 10: the correct ticker's position plus one |
| Game.IdentifyScenario | main.py:199-225 | symbols A..E, draw A,B,C,D, correct B: guess 2 scores 10 and guess 1 scores 0 |
| Game.PlayGame1 | main.py:198-229 | the imperative round yields Game1Outcome; the board gains exactly those rows and that total, or is unchanged on failure |
| Game.GenerateGame2 | main.py:232-293 | the imperative generation of a game-2 round (selection, start date, slices, mean, bonus, final close, classification, stopping at the first failure) yields exactly PrepareGame2 |
| Game.PlayGame2 | main.py:231-303 | the imperative round yields Game2Outcome; the board gains exactly those rows in order and their total, or is unchanged on failure |
| Game.ScoreGame2 | main.py:295-303 | the scoring branch issues the writes of Game2Writes in order: 10 then 5 on a bonus round, or a single 0; the board gains those rows and their sum |

## Left out

- Database plumbing: connections, table creation, user creation, login, deletion, renaming, the leaderboard and score display (main.py:18-162). This is I/O. Only the effect of `update_score` on the score column and the scores table is modelled. Users are registered when the board is built.
- Password hashing with SHA-256 (main.py:77, main.py:95). It is a foreign library call.
- Market data: the price download, the company metadata lookup and the NSE symbol list (main.py:177-196). These are network calls. The price series, the NSE universe and the stock list are parameters. Game 1's three-year chart data is not modelled because it does not affect scoring.
- Chart plotting (main.py:184-190), printed messages and display titles. These are UI. The only part of the title kept is whether it shows the stock name (`revealName`).
- Menus, `input()` parsing, the recursive re-entry of the menus and the global `user` (main.py:56-74, main.py:305-353). This is interactive flow. The user is a parameter, and the guess arrives already stripped and lower-cased.
- The random number generator. Its draws are parameters restricted to the ranges the library functions return.
- Floating point. Prices and the mean are exact reals, so pandas' rounding is not modelled. An empty evaluation slice gives `None` in place of NaN.
- Timestamps: the `date_played` column and the time-of-day part of dates. A date is a whole day number.
- Scoring.ScoreBoard.UpdateScore: a foreign-key failure for an unknown user raises an error in the source; the model only reports it as `ok == false` with no change.
