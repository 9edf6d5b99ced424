/**
 * The basin classifier `find_region` (streamlit_app.py:139-152): an ordered
 * if/elif chain of closed latitude/longitude tests on the raw coordinates the
 * map widget reports. Longitudes are not normalised, so the Atlantic test is
 * the plain range -80 <= lon <= 10 and the Pacific test the plain range
 * 120 <= lon <= 240.
 */
module Regions {
  import opened Wrappers

  /** The five basins the dashboard knows. */
  datatype Basin = Pacific | Indian | Atlantic | Southern | Arctic

  /** The name `find_region` returns for a basin; it keys the case table. */
  function Key(b: Basin): (k: string)
    ensures |k| > 0
  {
    match b
    case Pacific => "태평양"
    case Indian => "인도양"
    case Atlantic => "대서양"
    case Southern => "남극해"
    case Arctic => "북극해"
  }

  lemma KeyInjective(a: Basin, b: Basin)
    ensures Key(a) == Key(b) <==> a == b
  {
  }

  /** A closed area: a box in latitude and longitude, or a latitude band at every longitude. */
  datatype Area =
    | Box(latLo: real, latHi: real, lonLo: real, lonHi: real)
    | Band(latLo: real, latHi: real)

  predicate Contains(a: Area, lat: real, lon: real)
  {
    match a
    case Box(latLo, latHi, lonLo, lonHi) => latLo <= lat <= latHi && lonLo <= lon <= lonHi
    case Band(latLo, latHi) => latLo <= lat <= latHi
  }

  /** The area each basin's branch tests. */
  function AreaOf(b: Basin): Area
  {
    match b
    case Pacific => Box(-20.0, 60.0, 120.0, 240.0)
    case Indian => Box(-40.0, 30.0, 40.0, 120.0)
    case Atlantic => Box(10.0, 60.0, -80.0, 10.0)
    case Southern => Band(-90.0, -60.0)
    case Arctic => Band(60.0, 90.0)
  }

  /** The order in which the branches are tested. */
  const Order: seq<Basin> := [Pacific, Indian, Atlantic, Southern, Arctic]

  /**
   * Reference semantics of an ordered decision table: the first basin in
   * `order` whose area contains the point, or None when none does.
   */
  function FirstMatch(order: seq<Basin>, lat: real, lon: real): (r: Option<Basin>)
    ensures r.None? <==> forall i :: 0 <= i < |order| ==> !Contains(AreaOf(order[i]), lat, lon)
    ensures r.Some? ==> exists i :: 0 <= i < |order| && order[i] == r.value
                          && Contains(AreaOf(order[i]), lat, lon)
                          && forall j :: 0 <= j < i ==> !Contains(AreaOf(order[j]), lat, lon)
  {
    if |order| == 0 then None
    else if Contains(AreaOf(order[0]), lat, lon) then Some(order[0])
    else
      var r := FirstMatch(order[1..], lat, lon);
      assert forall i :: 1 <= i < |order| ==> order[i] == order[1..][i - 1];
      r
  }

  /** `find_region(lat, lon)`, branch by branch. */
  function FindRegion(lat: real, lon: real): Option<Basin>
  {
    if -20.0 <= lat <= 60.0 && 120.0 <= lon <= 240.0 then Some(Pacific)
    else if -40.0 <= lat <= 30.0 && 40.0 <= lon <= 120.0 then Some(Indian)
    else if 10.0 <= lat <= 60.0 && -80.0 <= lon <= 10.0 then Some(Atlantic)
    else if -90.0 <= lat <= -60.0 then Some(Southern)
    else if 60.0 <= lat <= 90.0 then Some(Arctic)
    else None
  }

  /** The if/elif chain is the first-match table over `Order`. */
  lemma FindRegionIsFirstMatch(lat: real, lon: real)
    ensures FindRegion(lat, lon) == FirstMatch(Order, lat, lon)
  {
    var tail1, tail2, tail3, tail4 := [Indian, Atlantic, Southern, Arctic], [Atlantic, Southern, Arctic], [Southern, Arctic], [Arctic];
    assert Order[1..] == tail1 && tail1[1..] == tail2 && tail2[1..] == tail3 && tail3[1..] == tail4 && tail4[1..] == [];
    assert FirstMatch(tail4, lat, lon) == if 60.0 <= lat <= 90.0 then Some(Arctic) else None;
    assert FirstMatch(tail3, lat, lon) == if -90.0 <= lat <= -60.0 then Some(Southern) else FirstMatch(tail4, lat, lon);
    assert FirstMatch(tail2, lat, lon) == if Contains(AreaOf(Atlantic), lat, lon) then Some(Atlantic) else FirstMatch(tail3, lat, lon);
    assert FirstMatch(tail1, lat, lon) == if Contains(AreaOf(Indian), lat, lon) then Some(Indian) else FirstMatch(tail2, lat, lon);
  }

  /**
   * `find_region` returns a basin exactly when that basin's area contains the
   * point and no area tested before it does; it returns None exactly when no
   * area contains the point.
   */
  lemma FindRegionSpec(lat: real, lon: real)
    ensures FindRegion(lat, lon).None? <==> forall b: Basin :: !Contains(AreaOf(b), lat, lon)
    ensures forall k :: 0 <= k < |Order| ==>
              (FindRegion(lat, lon) == Some(Order[k]) <==>
                 Contains(AreaOf(Order[k]), lat, lon)
                 && forall j :: 0 <= j < k ==> !Contains(AreaOf(Order[j]), lat, lon))
  {
    FindRegionIsFirstMatch(lat, lon);
    forall b: Basin ensures b in Order {
      match b
      case Pacific => assert Order[0] == b;
      case Indian => assert Order[1] == b;
      case Atlantic => assert Order[2] == b;
      case Southern => assert Order[3] == b;
      case Arctic => assert Order[4] == b;
    }
    var r := FirstMatch(Order, lat, lon);
    forall k | 0 <= k < |Order|
      ensures r == Some(Order[k]) <==>
                Contains(AreaOf(Order[k]), lat, lon)
                && forall j :: 0 <= j < k ==> !Contains(AreaOf(Order[j]), lat, lon)
    {
      if r == Some(Order[k]) {
        var i :| 0 <= i < |Order| && Order[i] == r.value && Contains(AreaOf(Order[i]), lat, lon)
                 && forall j :: 0 <= j < i ==> !Contains(AreaOf(Order[j]), lat, lon);
        assert i == k;
      } else if Contains(AreaOf(Order[k]), lat, lon) {
        var i :| 0 <= i < |Order| && Order[i] == r.value && Contains(AreaOf(Order[i]), lat, lon)
                 && forall j :: 0 <= j < i ==> !Contains(AreaOf(Order[j]), lat, lon);
        assert i < k;
      }
    }
  }

  /** The areas overlap only on the lines lat == 60 and lon == 120; elsewhere the order is irrelevant. */
  lemma OverlapsOnlyOnEdges(a: Basin, b: Basin, lat: real, lon: real)
    requires a != b
    requires Contains(AreaOf(a), lat, lon) && Contains(AreaOf(b), lat, lon)
    ensures lat == 60.0 || lon == 120.0
  {
  }

  /** The Pacific box wins every point it contains, including its shared edges. */
  lemma PacificWinsTies(lat: real, lon: real)
    ensures FindRegion(lat, lon) == Some(Pacific) <==> -20.0 <= lat <= 60.0 && 120.0 <= lon <= 240.0
  {
  }

  /** (60, 150) lies in the Arctic band and (0, 120) in the Indian box, but both are Pacific. */
  lemma PacificTieExamples()
    ensures Contains(AreaOf(Arctic), 60.0, 150.0) && FindRegion(60.0, 150.0) == Some(Pacific)
    ensures Contains(AreaOf(Indian), 0.0, 120.0) && FindRegion(0.0, 120.0) == Some(Pacific)
  {
  }

  /** Indian is its box minus the shared edge lon == 120 with the Pacific. */
  lemma IndianRegion(lat: real, lon: real)
    ensures FindRegion(lat, lon) == Some(Indian) <==>
              -40.0 <= lat <= 30.0 && 40.0 <= lon <= 120.0 && !(lon == 120.0 && lat >= -20.0)
  {
  }

  /** Atlantic is the plain raw-longitude box; no earlier box meets it. */
  lemma AtlanticIsPlainRange(lat: real, lon: real)
    ensures FindRegion(lat, lon) == Some(Atlantic) <==> 10.0 <= lat <= 60.0 && -80.0 <= lon <= 10.0
  {
  }

  /** A longitude written in the 0..360 convention is not Atlantic: (30, 355) is not, (30, -5) is. */
  lemma AtlanticNoWraparound()
    ensures FindRegion(30.0, 355.0) == None
    ensures FindRegion(30.0, -5.0) == Some(Atlantic)
  {
  }

  /** Southern is lat in [-90, -60] at every longitude. */
  lemma SouthernAnyLongitude(lat: real, lon: real)
    ensures FindRegion(lat, lon) == Some(Southern) <==> -90.0 <= lat <= -60.0
  {
  }

  /** Arctic is lat in [60, 90] at every longitude, except where a box tested earlier claims lat == 60. */
  lemma ArcticAnyLongitude(lat: real, lon: real)
    ensures FindRegion(lat, lon) == Some(Arctic) <==>
              60.0 <= lat <= 90.0
              && !(lat == 60.0 && (120.0 <= lon <= 240.0 || -80.0 <= lon <= 10.0))
  {
  }

  /** None is an ordinary answer: (0, 20), and the eastern Pacific as the widget reports it, (0, -150). */
  lemma NoRegionExamples()
    ensures FindRegion(0.0, 20.0) == None
    ensures FindRegion(0.0, -150.0) == None
  {
  }
}
