/**
 * The ten-year comparison at the clicked point (streamlit_app.py:169-193).
 * The temperature field is the type parameter `F`; `load` stands for
 * `load_data` (None when it fails) and `sample` for
 * `.sel(lat=lat, lon=lon, method="nearest").values` (None for NaN).
 */
module Comparison {
  import opened Wrappers
  import opened Dates

  /** The three outcomes inside the `try`. */
  datatype Comparison =
    | OverLand                                   // the land warning
    | Change(past: real, now: real, diff: real)  // the three metrics
    | PastLoadFailed                             // the error branch

  /**
   * The current field is sampled first, then the past field is loaded and
   * sampled. A failed load leaves `sst_past` as None, whose `.sel` raises,
   * so the error branch is taken whatever the current sample is. With both
   * fields present, a NaN on either side gives the land warning, and
   * otherwise the difference now minus past.
   */
  function CompareWithPast<F>(now: F, pastDate: Date, load: Date -> Option<F>,
                              sample: (F, real, real) -> Option<real>, lat: real, lon: real): (r: Comparison)
    ensures r.PastLoadFailed? <==> load(pastDate).None?
    ensures r.OverLand? <==>
              load(pastDate).Some?
              && (sample(now, lat, lon).None? || sample(load(pastDate).value, lat, lon).None?)
    ensures r.Change? ==>
              && load(pastDate).Some?
              && sample(now, lat, lon) == Some(r.now)
              && sample(load(pastDate).value, lat, lon) == Some(r.past)
              && r.past + r.diff == r.now
  {
    var nowValue := sample(now, lat, lon);
    var past := load(pastDate);
    if past.None? then PastLoadFailed
    else
      var pastValue := sample(past.value, lat, lon);
      if nowValue.None? || pastValue.None? then OverLand
      else Change(pastValue.value, nowValue.value, nowValue.value - pastValue.value)
  }
}
