/**
 * Candidate selection shared by both games (main.py:199-205 and main.py:232-238):
 * four symbols are sampled without replacement from the stock list, the NSE
 * universe gets the exchange suffix ".NS", and one of the four is chosen as the
 * correct ticker. The random draws are parameters: `draw` holds the four
 * distinct positions `sample` picked and `pick` the position `choice` picked.
 */
module Selection {
  import opened Wrappers
  import opened Errors

  type Ticker = string

  /** Size of the candidate set (the `4` passed to `sample`). */
  const SampleSize: nat := 4

  /** Exchange qualifier appended to every NSE symbol. */
  const NseSuffix: string := ".NS"

  datatype Candidates = Candidates(options: seq<Ticker>, correct: Ticker)

  /** `draw` is what `sample(range(n), 4)` can return: four distinct positions below n. */
  predicate IsSample(draw: seq<int>, n: nat) {
    && |draw| == SampleSize
    && (forall i :: 0 <= i < |draw| ==> 0 <= draw[i] < n)
    && (forall i, j :: 0 <= i < j < |draw| ==> draw[i] != draw[j])
  }

  predicate NoDuplicates(s: seq<Ticker>) {
    forall i, j :: 0 <= i < j < |s| ==> s[i] != s[j]
  }

  /**
   * The list comprehension `[stc + '.NS' for stc in select_stocks]`: each entry
   * is its symbol followed by the suffix, and distinct symbols stay distinct.
   */
  function Qualify(symbols: seq<Ticker>): (r: seq<Ticker>)
    ensures |r| == |symbols|
    ensures forall i :: 0 <= i < |r| ==>
      |r[i]| == |symbols[i]| + |NseSuffix| && r[i][..|symbols[i]|] == symbols[i] && r[i][|symbols[i]|..] == NseSuffix
    ensures NoDuplicates(symbols) ==> NoDuplicates(r)
  {
    var r := seq(|symbols|, i requires 0 <= i < |symbols| => symbols[i] + NseSuffix);
    assert NoDuplicates(symbols) ==> NoDuplicates(r) by {
      if NoDuplicates(symbols) {
        forall i, j | 0 <= i < j < |r| ensures r[i] != r[j] {
          if r[i] == r[j] {
            SuffixInjective(symbols[i], symbols[j]);
          }
        }
      }
    }
    r
  }

  /** The symbols at the sampled positions, in sampled order. */
  function Drawn(stockList: seq<Ticker>, draw: seq<int>): seq<Ticker>
    requires IsSample(draw, |stockList|)
  {
    seq(|draw|, i requires 0 <= i < |draw| => stockList[draw[i]])
  }

  /**
   * Selection as both games perform it. `stockList == nseUniverse` is the
   * source's `stock_list == nse_entirety` test.
   */
  function SelectCandidates(stockList: seq<Ticker>, nseUniverse: seq<Ticker>, draw: seq<int>, pick: int)
    : (r: Result<Candidates, GameError>)
    requires |stockList| >= SampleSize ==> IsSample(draw, |stockList|)
    requires 0 <= pick < SampleSize
    ensures r.Err? <==> |stockList| < SampleSize
    ensures r.Err? ==> r.error == InsufficientUniverse
    ensures r.Ok? ==> |r.value.options| == SampleSize && r.value.correct == r.value.options[pick]
  {
    if |stockList| < SampleSize then Err(InsufficientUniverse)
    else
      var symbols := Drawn(stockList, draw);
      var options := if stockList == nseUniverse then Qualify(symbols) else symbols;
      Ok(Candidates(options, options[pick]))
  }

  /** Appending the suffix never merges two different symbols. */
  lemma SuffixInjective(a: Ticker, b: Ticker)
    requires a + NseSuffix == b + NseSuffix
    ensures a == b
  {
    assert |a| == |b|;
    assert a == (a + NseSuffix)[..|a|];
    assert b == (b + NseSuffix)[..|b|];
  }

  /**
   * Every option is the symbol drawn at the same position, qualified with ".NS"
   * exactly when the list is the NSE universe; the correct ticker is the option
   * at `pick`, so it is named the same way as the options shown.
   */
  lemma SelectionNaming(stockList: seq<Ticker>, nseUniverse: seq<Ticker>, draw: seq<int>, pick: int)
    requires |stockList| >= SampleSize && IsSample(draw, |stockList|)
    requires 0 <= pick < SampleSize
    ensures var r := SelectCandidates(stockList, nseUniverse, draw, pick);
      && r.Ok?
      && (forall i :: 0 <= i < SampleSize ==>
            r.value.options[i] == if stockList == nseUniverse then stockList[draw[i]] + NseSuffix else stockList[draw[i]])
      && (stockList == nseUniverse ==> r.value.correct == stockList[draw[pick]] + NseSuffix)
      && (stockList != nseUniverse ==> r.value.correct in stockList)
  {
  }

  /**
   * A list without repeated symbols yields four pairwise-distinct tickers, and
   * the correct ticker sits at exactly one position among them.
   */
  lemma SelectionDistinct(stockList: seq<Ticker>, nseUniverse: seq<Ticker>, draw: seq<int>, pick: int)
    requires |stockList| >= SampleSize && IsSample(draw, |stockList|) && NoDuplicates(stockList)
    requires 0 <= pick < SampleSize
    ensures var r := SelectCandidates(stockList, nseUniverse, draw, pick);
      && r.Ok?
      && NoDuplicates(r.value.options)
      && (forall i :: 0 <= i < SampleSize ==> (r.value.options[i] == r.value.correct <==> i == pick))
  {
    var symbols := Drawn(stockList, draw);
    forall i, j | 0 <= i < j < SampleSize
      ensures symbols[i] != symbols[j]
    {
      if draw[i] < draw[j] {
        assert stockList[draw[i]] != stockList[draw[j]];
      } else {
        assert stockList[draw[j]] != stockList[draw[i]];
      }
    }
  }
}
