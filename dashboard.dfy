/**
 * One run of the script from the date pick on, as far as its logic goes:
 * the current field is loaded (a failure stops the page,
 * streamlit_app.py:44-47), the click is read (lines 69-72), and the results
 * block runs only when both coordinates are truthy (line 155). Inside it the
 * case listing is shown, then the past date is derived outside any `try`
 * (line 167), so a failure there aborts the rest of the run; otherwise the
 * comparison and the five-year average follow.
 */
module Dashboard {
  import opened Wrappers
  import opened Regions
  import opened Cases
  import opened Dates
  import opened Comparison
  import opened Averaging

  /** What the page ends with. */
  datatype Page =
    | Stopped                                     // the selected date did not load
    | NoResults                                   // no click, or a zero coordinate
    | Crashed(listing: Listing)                   // `replace` raised after the listing
    | Results(listing: Listing, comparison: Comparison, average: AverageNote)

  /** `if lat and lon`: a click whose latitude and longitude are both non-zero. */
  predicate IsClick(click: Option<(real, real)>)
  {
    click.Some? && click.value.0 != 0.0 && click.value.1 != 0.0
  }

  method Render<F>(selected: Date, today: Date, click: Option<(real, real)>, load: Date -> Option<F>,
                   sample: (F, real, real) -> Option<real>, globalMean: F -> real)
    returns (page: Page)
    ensures page.Stopped? <==> load(selected).None?
    ensures page.NoResults? <==> load(selected).Some? && !IsClick(click)
    ensures page.Crashed? <==> load(selected).Some? && IsClick(click) && PastDate(selected).None?
    ensures (page.Crashed? || page.Results?) ==>
              page.listing == CaseListing(PollutionCases, FindRegion(click.value.0, click.value.1))
    ensures page.Results? ==>
              && page.comparison == CompareWithPast(load(selected).value, PastDate(selected).value,
                                                    load, sample, click.value.0, click.value.1)
              && page.average == AverageNoteOf(today.year, load, globalMean)
  {
    var sstNow := load(selected);
    if sstNow.None? {
      return Stopped;
    }
    if !IsClick(click) {
      return NoResults;
    }
    var (lat, lon) := click.value;
    var listing := CaseListing(PollutionCases, FindRegion(lat, lon));
    var pastDate := PastDate(selected);
    if pastDate.None? {
      return Crashed(listing);
    }
    var comparison := CompareWithPast(sstNow.value, pastDate.value, load, sample, lat, lon);
    var average := FiveYearAverage(today.year, load, globalMean);
    page := Results(listing, comparison, average);
  }
}
