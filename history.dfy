/**
 * Window sampling for game 2 (main.py:243-271): dates are day numbers, a
 * `timedelta(days=n)` is `+ n`, and a price series is a list of closes
 * strictly increasing by day, as the market-data download returns it.
 */
module History {
  import opened Wrappers

  datatype PricePoint = PricePoint(day: int, close: real)

  /** `duration_years` in `game2`. */
  const DurationYears: nat := 3
  /** Length of the study window, `timedelta(days=duration_years*365)`. */
  const StudyDays: nat := DurationYears * 365
  /** Length of the evaluation window, `timedelta(days=365)`. */
  const EvalDays: nat := 365

  /** An inclusive range of days, as pandas label slicing reads it. */
  datatype Window = Window(start: int, end: int)

  predicate InWindow(w: Window, day: int) {
    w.start <= day <= w.end
  }

  predicate Sorted(s: seq<PricePoint>) {
    forall i, j :: 0 <= i < j < |s| ==> s[i].day < s[j].day
  }

  /**
   * `get_random_start_date`: the latest start is `last - 1095`; `offset` is the
   * value `randint(0, k)` returned for `k = latest - first`. A negative `k`
   * makes `randint` raise, which the bare `except` turns into `None`.
   */
  function RandomStartDate(first: int, last: int, offset: int): (r: Option<int>)
    requires last - StudyDays - first >= 0 ==> 0 <= offset <= last - StudyDays - first
    ensures r.Some? <==> first <= last - StudyDays
    ensures r.Some? ==> first <= r.value <= last - StudyDays
    ensures r.Some? ==> r.value + StudyDays <= last
  {
    var maxStart := last - StudyDays;
    if maxStart - first < 0 then None else Some(first + offset)
  }

  /** `random_start_date` to `random_end_date`: three years of 365 days from the start. */
  function StudyWindow(start: int): (w: Window)
    ensures w.start == start && w.end - w.start == StudyDays
    ensures forall day :: InWindow(w, day) <==> start <= day <= start + StudyDays
  {
    Window(start, start + StudyDays)
  }

  /**
   * `one_year_later_start` to `one_year_later_end`: 365 days that begin the day
   * after the study window and share no day with it.
   */
  function EvalWindow(study: Window): (w: Window)
    ensures w.start == study.end + 1 && w.end - w.start == EvalDays
    ensures forall day :: !(InWindow(study, day) && InWindow(w, day))
  {
    Window(study.end + 1, study.end + 1 + EvalDays)
  }

  /**
   * The two windows of a round are adjacent: together they cover exactly the
   * days from the start to the end of the evaluation year, and no day lies in both.
   */
  lemma WindowsAdjacent(start: int, day: int)
    ensures var study := StudyWindow(start); var eval := EvalWindow(study);
      && study.end - study.start == StudyDays
      && eval.end - eval.start == EvalDays
      && eval.start == study.end + 1
      && !(InWindow(study, day) && InWindow(eval, day))
      && (InWindow(study, day) || InWindow(eval, day) <==> start <= day <= start + StudyDays + 1 + EvalDays)
  {
  }

  /**
   * `stock_data[lo:hi]`: label-based, inclusive on both ends. The slice is never
   * longer than the series and an empty range keeps nothing; SliceMembers says
   * which points it keeps.
   */
  function Slice(s: seq<PricePoint>, lo: int, hi: int): (r: seq<PricePoint>)
    ensures |r| <= |s|
    ensures hi < lo ==> r == []
  {
    if s == [] then []
    else (if lo <= s[0].day <= hi then [s[0]] else []) + Slice(s[1..], lo, hi)
  }

  /** The slice keeps exactly the points of the series whose day lies in the range. */
  lemma {:induction false} SliceMembers(s: seq<PricePoint>, lo: int, hi: int)
    ensures forall p :: p in Slice(s, lo, hi) <==> p in s && lo <= p.day <= hi
  {
    if s != [] {
      SliceMembers(s[1..], lo, hi);
      assert s == [s[0]] + s[1..];
    }
  }

  lemma {:induction false} SliceSorted(s: seq<PricePoint>, lo: int, hi: int)
    requires Sorted(s)
    ensures Sorted(Slice(s, lo, hi))
  {
    if s != [] {
      SliceSorted(s[1..], lo, hi);
      SliceMembers(s[1..], lo, hi);
      var rest := Slice(s[1..], lo, hi);
      forall q | q in rest ensures s[0].day < q.day {
        assert q in s[1..];
      }
    }
  }

  /** A range lying entirely after the data gives an empty slice. */
  lemma {:induction false} SliceAfterDataEmpty(s: seq<PricePoint>, lo: int, hi: int)
    requires forall i :: 0 <= i < |s| ==> s[i].day < lo
    ensures Slice(s, lo, hi) == []
  {
    if s != [] {
      SliceAfterDataEmpty(s[1..], lo, hi);
    }
  }

  /** A range lying entirely before the data gives an empty slice. */
  lemma {:induction false} SliceBeforeDataEmpty(s: seq<PricePoint>, lo: int, hi: int)
    requires forall i :: 0 <= i < |s| ==> hi < s[i].day
    ensures Slice(s, lo, hi) == []
  {
    if s != [] {
      SliceBeforeDataEmpty(s[1..], lo, hi);
    }
  }

  /** Two ranges that admit the same points give the same slice. */
  lemma {:induction false} SliceSameRange(s: seq<PricePoint>, lo1: int, hi1: int, lo2: int, hi2: int)
    requires forall i :: 0 <= i < |s| ==> (lo1 <= s[i].day <= hi1 <==> lo2 <= s[i].day <= hi2)
    ensures Slice(s, lo1, hi1) == Slice(s, lo2, hi2)
  {
    if s != [] {
      SliceSameRange(s[1..], lo1, hi1, lo2, hi2);
    }
  }

  /**
   * Cutting a range at `mid` loses and repeats nothing: the two slices, in
   * order, are the slice of the whole range.
   */
  lemma {:induction false} SliceSplit(s: seq<PricePoint>, lo: int, mid: int, hi: int)
    requires Sorted(s)
    requires lo <= mid + 1 && mid <= hi
    ensures Slice(s, lo, mid) + Slice(s, mid + 1, hi) == Slice(s, lo, hi)
  {
    if s != [] {
      var rest := s[1..];
      assert Sorted(rest) by {
        forall i, j | 0 <= i < j < |rest| ensures rest[i].day < rest[j].day {
          assert rest[i] == s[i + 1] && rest[j] == s[j + 1];
        }
      }
      if s[0].day <= mid {
        SliceSplit(rest, lo, mid, hi);
        var head := if lo <= s[0].day then [s[0]] else [];
        calc {
          Slice(s, lo, mid) + Slice(s, mid + 1, hi);
          (head + Slice(rest, lo, mid)) + Slice(rest, mid + 1, hi);
          head + (Slice(rest, lo, mid) + Slice(rest, mid + 1, hi));
          head + Slice(rest, lo, hi);
          Slice(s, lo, hi);
        }
      } else {
        assert forall i :: 0 <= i < |s| ==> mid < s[i].day by {
          forall i | 0 <= i < |s| ensures mid < s[i].day {
            if i > 0 { assert s[0].day < s[i].day; }
          }
        }
        SliceBeforeDataEmpty(s, lo, mid);
        SliceSameRange(s, mid + 1, hi, lo, hi);
      }
    }
  }

  /** The round's study and evaluation slices together are the slice of both windows. */
  lemma RoundSlicesCover(s: seq<PricePoint>, start: int)
    requires Sorted(s)
    ensures var study := StudyWindow(start); var eval := EvalWindow(study);
      Slice(s, study.start, study.end) + Slice(s, eval.start, eval.end) == Slice(s, study.start, eval.end)
  {
    SliceSplit(s, start, start + StudyDays, start + StudyDays + 1 + EvalDays);
  }

  function SumCloses(s: seq<PricePoint>): real {
    if s == [] then 0.0 else s[0].close + SumCloses(s[1..])
  }

  /** `one_year_data['Close'].mean()`: the mean of the closes, `None` standing for NaN. */
  function Mean(s: seq<PricePoint>): (r: Option<real>)
    ensures r.None? <==> s == []
  {
    if s == [] then None else Some(SumCloses(s) / (|s| as real))
  }

  lemma {:induction false} SumAbove(s: seq<PricePoint>, x: real)
    requires forall i :: 0 <= i < |s| ==> s[i].close > x
    ensures s != [] ==> SumCloses(s) > (|s| as real) * x
  {
    if s != [] {
      SumAbove(s[1..], x);
    }
  }

  lemma {:induction false} SumBelow(s: seq<PricePoint>, x: real)
    requires forall i :: 0 <= i < |s| ==> s[i].close < x
    ensures s != [] ==> SumCloses(s) < (|s| as real) * x
  {
    if s != [] {
      SumBelow(s[1..], x);
    }
  }

  /** If every close is above `x`, so is the mean. */
  lemma MeanAbove(s: seq<PricePoint>, x: real)
    requires s != []
    requires forall i :: 0 <= i < |s| ==> s[i].close > x
    ensures Mean(s).Some? && Mean(s).value > x
  {
    SumAbove(s, x);
    var n := |s| as real;
    assert Mean(s).value * n == SumCloses(s);
  }

  /** If every close is below `x`, so is the mean. */
  lemma MeanBelow(s: seq<PricePoint>, x: real)
    requires s != []
    requires forall i :: 0 <= i < |s| ==> s[i].close < x
    ensures Mean(s).Some? && Mean(s).value < x
  {
    SumBelow(s, x);
    var n := |s| as real;
    assert Mean(s).value * n == SumCloses(s);
  }

  /** `three_year_data['Close'].iloc[-1]`; `None` where pandas raises IndexError. */
  function FinalClose(window: seq<PricePoint>): (r: Option<real>)
    ensures r.None? <==> window == []
  {
    if window == [] then None else Some(window[|window| - 1].close)
  }

  /**
   * On a sorted series the final close belongs to the last trading day on or
   * before the window's end: a point inside the window, and no later point is.
   */
  lemma {:induction false} FinalCloseIsLatest(s: seq<PricePoint>, w: Window)
    requires Sorted(s)
    requires Slice(s, w.start, w.end) != []
    ensures exists p :: (p in s && InWindow(w, p.day) && FinalClose(Slice(s, w.start, w.end)) == Some(p.close)
                         && (forall q :: q in s && InWindow(w, q.day) ==> q.day <= p.day))
  {
    SliceSorted(s, w.start, w.end);
    SliceMembers(s, w.start, w.end);
  }
}
