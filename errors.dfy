/** The ways a round of either game ends without writing a score. */
module Errors {

  /** Failures of a round; each one ends it without a score. */
  datatype GameError =
    | InsufficientUniverse   // `sample` raises ValueError: fewer than 4 symbols
    | EmptyHistory           // `stock_data.index[0]` raises IndexError
    | InsufficientHistory    // no start date can be drawn; game2 returns silently
    | EmptyStudyWindow       // `three_year_data['Close'].iloc[-1]` raises IndexError
    | GuessOutOfRange        // `selected_stocks[guess - 1]` raises IndexError
}
