# Sea-surface temperature and pollution-case dashboard: a Dafny model

The dashboard (`streamlit_app.py`) lets a user pick a date and click a point
on a world map. It then shows the pollution case studies for the ocean basin
containing the point, compares the sea-surface temperature there with the
same day ten years earlier, and closes with the average global temperature
of the last five years. This project models the decision logic of that
script and proves properties of it:

- `Regions`: the basin classifier `find_region`. It is an ordered chain of
  closed latitude/longitude tests on the raw coordinates the widget reports.
  The model proves that it agrees with an independent first-match reading of
  the decision table. It also characterises each basin's answer exactly,
  shows that the boxes overlap only on the lines lat = 60 and lon = 120, and
  shows that branch order decides those ties.
- `Cases`: the static `pollution_cases` table and the lookup that shows the
  first five entries of a basin's list, numbered from 1, or a warning.
- `Dates`: calendar validity as Python's `datetime.date` checks it, and the
  ten-years-earlier date from `replace(year=year - 10)`. That date fails
  exactly on February 29.
- `Comparison`: the ten-year comparison, with its three distinct outcomes:
  the load error, the land warning (a NaN sample) and the difference now
  minus past.
- `Averaging`: the five-year loop, written as a method with a sequence
  accumulator and proved against a specification function. Lemmas show that
  failed loads are dropped rather than zero-filled, that nothing is kept
  exactly when nothing loaded, and that the reported mean lies between the
  smallest and largest kept value.
- `Dashboard`: one run of the page. A failed load of the selected date stops
  the page. The results block is gated by `if lat and lon`, so a zero
  coordinate counts as no click. A failing `replace` aborts the run after the
  case listing, because it happens before the `try`. Otherwise the page shows
  the comparison and the average.

The remote dataset is abstract. The temperature field is a type parameter,
`load_data` is a function `Date -> Option<F>` (None when it fails), nearest
sampling is a function `(F, real, real) -> Option<real>` (None for NaN), and
the global mean is a function `F -> real`. Today's date is a parameter.
Temperatures and coordinates are mathematical reals.

Three points of the code that the model keeps as they are:

- The Atlantic test is the raw range -80 <= lon <= 10, with no 0/360
  wraparound, so (30, 355) is not Atlantic.
- The boxes touch on lat = 60 and on lon = 120, and there the branch tested
  first wins.
- There is no leap-day fallback: on February 29 `replace` raises outside the
  `try`.

The model also keeps the Pacific test as coded. It is 120 <= lon <= 240, so
the eastern Pacific reported as a negative longitude (for example (0, -150))
is not classified.

## Model

| member | source | states |
|---|---|---|
| Regions.Key | streamlit_app.py:141-150 | every basin name the classifier returns is a non-empty (truthy) string |
| Regions.KeyInjective | streamlit_app.py:141-150 | the five basin names are pairwise distinct |
| Regions.FirstMatch | streamlit_app.py:139-152 | an ordered table answers None iff no area contains the point, and otherwise a basin whose area contains it while no earlier area does |
| Regions.FindRegionIsFirstMatch | streamlit_app.py:139-152 | `FindRegion`, the branch-by-branch rendering of lines 141-152, equals the first-match reading of the table Pacific, Indian, Atlantic, Southern, Arctic |
| Regions.FindRegionSpec | streamlit_app.py:139-152 | the result is None iff no basin area contains the point, and is basin k iff area k contains it and no earlier area does |
| Regions.OverlapsOnlyOnEdges | streamlit_app.py:141-150 | two different basin areas share only points with lat = 60 or lon = 120 |
| Regions.PacificWinsTies | streamlit_app.py:141-142 | the result is Pacific iff lat is in [-20, 60] and lon is in [120, 240] |
| Regions.PacificTieExamples | streamlit_app.py:141-150 | (60, 150) is in the Arctic band and (0, 120) is in the Indian box, yet both are Pacific |
| Regions.IndianRegion | streamlit_app.py:143-144 | the result is Indian iff the point is in the Indian box but not on its shared edge lon = 120 with lat >= -20 |
| Regions.AtlanticIsPlainRange | streamlit_app.py:145-146 | the result is Atlantic iff lat is in [10, 60] and the raw lon is in [-80, 10] |
| Regions.AtlanticNoWraparound | streamlit_app.py:145-152 | (30, 355) gives None and (30, -5) gives Atlantic |
| Regions.SouthernAnyLongitude | streamlit_app.py:147-148 | the result is Southern iff lat is in [-90, -60], at any longitude |
| Regions.ArcticAnyLongitude | streamlit_app.py:149-150 | the result is Arctic iff lat is in [60, 90], except lat = 60 inside the Pacific or Atlantic longitude range |
| Regions.NoRegionExamples | streamlit_app.py:151-152 | (0, 20) and (0, -150) give None |
| Cases.CaseListing | streamlit_app.py:157-164 | the warning is shown iff there is no basin or its name is not a key; otherwise the first min(5, n) entries are shown in table order, numbered from 1 |
| Cases.TableCoversEveryBasin | streamlit_app.py:76-137 | the table's keys are exactly the five basin names, each with exactly five cases |
| Cases.ClassifiedPointShowsFiveCases | streamlit_app.py:155-164 | every basin the classifier returns finds its list, and all five entries are shown; an unclassified point gets the warning |
| Dates.JanFirstExists | streamlit_app.py:204 | Jan 1 of a year can be built iff the year is in 1..9999, so the loop at line 204 raises only for a year outside that range |
| Dates.LeapDayExists | streamlit_app.py:167 | February 29 of a year exists iff the year is in 1..9999 and a leap year |
| Dates.ReplaceYearRoundTrip | streamlit_app.py:167 | replacing the year of a valid date and then putting the old year back gives the original date |
| Dates.PastDate | streamlit_app.py:167 | the past date exists iff the same month and day exist ten years earlier, and is then a valid date ten years earlier with the same month and day |
| Dates.LeapYearTenBefore | streamlit_app.py:167 | ten years before a leap year is never a leap year |
| Dates.PastDateFailsOnlyOnLeapDay | streamlit_app.py:167-169 | for a valid date whose year minus ten is valid, the past date fails exactly on February 29 |
| Dates.PastDateExamples | streamlit_app.py:167 | 2024-02-29 has no past date, and 2023-06-15 gives 2013-06-15 |
| Comparison.CompareWithPast | streamlit_app.py:169-193 | the error branch is taken iff the past load fails; the land warning iff both loads succeed and either sample is NaN; otherwise both samples are reported and past + diff = now |
| Averaging.FiveYearAverage | streamlit_app.py:199-222 | the loop over offsets 0..4 produces exactly the message its specification function gives |
| Averaging.KeptCountsLoads | streamlit_app.py:203-208 | `Kept`, the contents of `avg_temps` after the first n offsets, has one value per year that loaded, with none for a failed year |
| Averaging.KeptAreLoadedMeans | streamlit_app.py:203-208 | the accumulated values are exactly the global means of Jan 1 of the visited years that loaded: every kept value is such a mean, and every such mean is kept |
| Averaging.KeptEmptyIffNoLoads | streamlit_app.py:203-210 | the list is empty iff none of the visited years loaded |
| Averaging.SumBounds | streamlit_app.py:210 | the sum of n values bounded by lo and hi lies between n * lo and n * hi |
| Averaging.MeanBounds | streamlit_app.py:210 | the mean of a non-empty list lies between any lower and upper bound of its values |
| Averaging.AverageNoteCases | streamlit_app.py:199-222 | for a valid current year, the error is reported iff no year loaded; otherwise the reported average lies within the bounds of the loaded means |
| Averaging.TwoFailuresExample | streamlit_app.py:199-222 | with two of five loads failing and means 10, 20, 30 for the others, the reported average is 20 |
| Dashboard.Render | streamlit_app.py:44-222 | the page stops iff the selected date fails to load; it shows no results iff there is no click or a coordinate is zero (`IsClick`, the test `if lat and lon` at line 155); it crashes after the listing iff the past date fails; otherwise it shows the listing, the comparison and the average of their specifications |

## Left out

- User interface: page setup, sidebar, spinners, metrics, expanders, markdown, `st.stop` as a call, the Plotly and Folium maps. Only which branch the page ends in is modelled.
- Dataset access: `xr.open_dataset` on the remote archive, `.sel(time=...)`, `.squeeze()`, caching by `@st.cache_data`, and the error message `load_data` prints. `load_data` is an abstract function from a date to an optional field.
- Nearest-neighbour sampling and the global field mean: xarray's `.sel(..., method="nearest")` and `.mean()` are abstract functions. A NaN sample is None.
- Floating point: temperatures, differences and means are reals. Rounding, NaN arithmetic beyond the NaN test, and the `:.2f` and `:+.2f` formatting are not modelled.
- The date picker's bounds (1981-09-01 to two days before today) and `datetime.date.today()` are environment-dependent, so `selected` and `today` are parameters with no bounds imposed.
- Case descriptions: `Case` keeps each entry's title and link but not its long description text.
- Cases.CaseListing: models the truthiness test `region and ...` as "a basin was returned". Every key is non-empty (Regions.Key), so no returned name is falsy.
- Averaging.FiveYearAverage: the loads made before a year outside 1..9999 raises are not visible in the result, because the function that specifies it depends only on the final message.
