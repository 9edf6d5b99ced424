/**
 * The five-year average (streamlit_app.py:199-222): Jan 1 of the current
 * year and of each of the four years before it is loaded; the global mean of
 * every field that loads is appended to `avg_temps`, failures are skipped,
 * and the average of the kept means is formatted into the closing message.
 * `load` stands for `load_data` and `globalMean` for `float(data.mean().values)`.
 */
module Averaging {
  import opened Wrappers
  import opened Dates

  /** How many years the loop visits (`range(5)`). */
  const Years: nat := 5

  /** The closing message: the formatted average, or the error at line 222. */
  datatype AverageNote = Reported(average: real) | ReportedError

  function Sum(xs: seq<real>): real
  {
    if |xs| == 0 then 0.0 else Sum(xs[..|xs| - 1]) + xs[|xs| - 1]
  }

  /** The arithmetic mean (`np.mean`) of a non-empty list. */
  function Mean(xs: seq<real>): real
    requires |xs| > 0
  {
    Sum(xs) / (|xs| as real)
  }

  /** The global mean of the field for Jan 1 of year `currentYear - offset`, if that field loads. */
  function YearMean<F>(currentYear: int, offset: int, load: Date -> Option<F>, globalMean: F -> real): Option<real>
  {
    match load(Date(currentYear - offset, 1, 1))
    case Some(f) => Some(globalMean(f))
    case None => None
  }

  /** `avg_temps` after the first `n` offsets: the means of the years that loaded, offset 0 first. */
  function Kept<F>(currentYear: int, n: nat, load: Date -> Option<F>, globalMean: F -> real): seq<real>
  {
    if n == 0 then []
    else
      var m := YearMean(currentYear, n - 1, load, globalMean);
      Kept(currentYear, n - 1, load, globalMean) + (if m.Some? then [m.value] else [])
  }

  /** The number of the first `n` offsets whose year loaded. */
  function Loaded<F>(currentYear: int, n: nat, load: Date -> Option<F>, globalMean: F -> real): nat
  {
    if n == 0 then 0
    else Loaded(currentYear, n - 1, load, globalMean)
         + (if YearMean(currentYear, n - 1, load, globalMean).Some? then 1 else 0)
  }

  /** `five_year_avg`: the mean of the kept values, or None when nothing loaded. */
  function AverageOf(kept: seq<real>): Option<real>
  {
    if |kept| > 0 then Some(Mean(kept)) else None
  }

  /** `"{:.2f}".format(five_year_avg)`; formatting None raises, which reports the error. */
  function Format(average: Option<real>): AverageNote
  {
    match average
    case Some(a) => Reported(a)
    case None => ReportedError
  }

  /**
   * The closing message for a current year. Building Jan 1 of a year
   * outside 1..9999 raises inside the `try`, which also reports the error.
   */
  function AverageNoteOf<F>(currentYear: int, load: Date -> Option<F>, globalMean: F -> real): AverageNote
  {
    if !(MinYear <= currentYear - (Years - 1) && currentYear <= MaxYear) then ReportedError
    else Format(AverageOf(Kept(currentYear, Years, load, globalMean)))
  }

  /** The loop at lines 199-222. */
  method FiveYearAverage<F>(currentYear: int, load: Date -> Option<F>, globalMean: F -> real)
    returns (note: AverageNote)
    ensures note == AverageNoteOf(currentYear, load, globalMean)
  {
    var avgTemps: seq<real> := [];
    var offset := 0;
    while offset < Years
      invariant 0 <= offset <= Years
      invariant MinYear <= currentYear - (offset - 1) || offset == 0
      invariant currentYear <= MaxYear || offset == 0
      invariant avgTemps == Kept(currentYear, offset, load, globalMean)
    {
      var dateToCheck := MakeDate(currentYear - offset, 1, 1);
      if dateToCheck.None? {
        return ReportedError;
      }
      var data := load(dateToCheck.value);
      if data.Some? {
        avgTemps := avgTemps + [globalMean(data.value)];
      }
      offset := offset + 1;
    }
    var fiveYearAvg := if |avgTemps| > 0 then Some(Mean(avgTemps)) else None;
    note := Format(fiveYearAvg);
  }

  /** Failures are dropped, not zero-filled: one kept value per year that loaded. */
  lemma {:induction false} KeptCountsLoads<F>(currentYear: int, n: nat, load: Date -> Option<F>, globalMean: F -> real)
    ensures |Kept(currentYear, n, load, globalMean)| == Loaded(currentYear, n, load, globalMean)
  {
    if n > 0 {
      KeptCountsLoads(currentYear, n - 1, load, globalMean);
    }
  }

  /** The kept values are exactly the global means of the years among the first `n` offsets that loaded. */
  lemma {:induction false} KeptAreLoadedMeans<F>(currentYear: int, n: nat, load: Date -> Option<F>, globalMean: F -> real)
    ensures forall x :: x in Kept(currentYear, n, load, globalMean) ==>
              exists k :: 0 <= k < n && YearMean(currentYear, k, load, globalMean) == Some(x)
    ensures forall k :: 0 <= k < n && YearMean(currentYear, k, load, globalMean).Some? ==>
              YearMean(currentYear, k, load, globalMean).value in Kept(currentYear, n, load, globalMean)
  {
    if n > 0 {
      KeptAreLoadedMeans(currentYear, n - 1, load, globalMean);
      assert Kept(currentYear, n - 1, load, globalMean) <= Kept(currentYear, n, load, globalMean);
      var m := YearMean(currentYear, n - 1, load, globalMean);
      forall x | x in Kept(currentYear, n, load, globalMean)
        ensures exists k :: 0 <= k < n && YearMean(currentYear, k, load, globalMean) == Some(x)
      {
        if x !in Kept(currentYear, n - 1, load, globalMean) {
          assert m == Some(x);
          assert YearMean(currentYear, n - 1, load, globalMean) == Some(x);
        }
      }
    }
  }

  /** Nothing is kept exactly when no year loaded. */
  lemma {:induction false} KeptEmptyIffNoLoads<F>(currentYear: int, n: nat, load: Date -> Option<F>, globalMean: F -> real)
    ensures |Kept(currentYear, n, load, globalMean)| == 0 <==>
              forall k :: 0 <= k < n ==> YearMean(currentYear, k, load, globalMean).None?
  {
    if n > 0 {
      KeptEmptyIffNoLoads(currentYear, n - 1, load, globalMean);
      if |Kept(currentYear, n, load, globalMean)| == 0 {
        forall k | 0 <= k < n ensures YearMean(currentYear, k, load, globalMean).None? {
          if k < n - 1 {
            assert |Kept(currentYear, n - 1, load, globalMean)| == 0;
          }
        }
      }
    }
  }

  /** The sum lies between |xs| times a lower and an upper bound of the elements. */
  lemma {:induction false} SumBounds(xs: seq<real>, lo: real, hi: real)
    requires forall i :: 0 <= i < |xs| ==> lo <= xs[i] <= hi
    ensures (|xs| as real) * lo <= Sum(xs) <= (|xs| as real) * hi
  {
    if |xs| > 0 {
      SumBounds(xs[..|xs| - 1], lo, hi);
    }
  }

  /** The mean lies between any lower and upper bound of the elements. */
  lemma MeanBounds(xs: seq<real>, lo: real, hi: real)
    requires |xs| > 0
    requires forall i :: 0 <= i < |xs| ==> lo <= xs[i] <= hi
    ensures lo <= Mean(xs) <= hi
  {
    SumBounds(xs, lo, hi);
    var n := |xs| as real;
    assert Sum(xs) / n >= lo by {
      assert Sum(xs) / n * n == Sum(xs);
    }
    assert Sum(xs) / n <= hi by {
      assert Sum(xs) / n * n == Sum(xs);
    }
  }

  /**
   * With a valid current year the message is an error exactly when no year
   * loaded, and otherwise reports the mean of the kept values, which lies
   * between the smallest and largest global mean that loaded.
   */
  lemma AverageNoteCases<F>(currentYear: int, load: Date -> Option<F>, globalMean: F -> real, lo: real, hi: real)
    requires MinYear <= currentYear - (Years - 1) && currentYear <= MaxYear
    requires forall k :: 0 <= k < Years && YearMean(currentYear, k, load, globalMean).Some? ==>
               lo <= YearMean(currentYear, k, load, globalMean).value <= hi
    ensures AverageNoteOf(currentYear, load, globalMean).ReportedError? <==>
              forall k :: 0 <= k < Years ==> YearMean(currentYear, k, load, globalMean).None?
    ensures AverageNoteOf(currentYear, load, globalMean).Reported? ==>
              lo <= AverageNoteOf(currentYear, load, globalMean).average <= hi
  {
    var kept := Kept(currentYear, Years, load, globalMean);
    KeptEmptyIffNoLoads(currentYear, Years, load, globalMean);
    if |kept| > 0 {
      KeptAreLoadedMeans(currentYear, Years, load, globalMean);
      forall i | 0 <= i < |kept| ensures lo <= kept[i] <= hi {
        var x := kept[i];
        assert x in kept;
        var k :| 0 <= k < Years && YearMean(currentYear, k, load, globalMean) == Some(x);
      }
      MeanBounds(kept, lo, hi);
    }
  }

  /** Two of five loads failing: the means 10, 20, 30 of the other three average to 20. */
  lemma {:induction false} TwoFailuresExample(load: Date -> Option<real>)
    requires load(Date(2024, 1, 1)) == Some(10.0) && load(Date(2023, 1, 1)).None?
    requires load(Date(2022, 1, 1)) == Some(20.0) && load(Date(2021, 1, 1)).None?
    requires load(Date(2020, 1, 1)) == Some(30.0)
    ensures AverageNoteOf(2024, load, x => x) == Reported(20.0)
  {
    var id := (x: real) => x;
    assert Kept(2024, 1, load, id) == [10.0];
    assert Kept(2024, 2, load, id) == [10.0];
    assert Kept(2024, 3, load, id) == [10.0, 20.0];
    assert Kept(2024, 4, load, id) == [10.0, 20.0];
    assert Kept(2024, 5, load, id) == [10.0, 20.0, 30.0];
    assert Sum([10.0, 20.0, 30.0]) == 60.0 by {
      assert [10.0, 20.0, 30.0][..2] == [10.0, 20.0];
      assert [10.0, 20.0][..1] == [10.0];
      assert [10.0][..0] == [];
    }
  }
}
