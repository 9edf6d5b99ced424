/**
 * The pollution-case table `pollution_cases` (streamlit_app.py:76-137) and
 * the lookup that shows a basin's cases (streamlit_app.py:156-164): the
 * first five entries of the basin's list, numbered from 1, or a warning when
 * there is no basin or no list for it.
 */
module Cases {
  import opened Wrappers
  import opened Regions

  /** One case study; the long description text is not modelled. */
  datatype Case = Case(title: string, link: string)

  /** A displayed case with its 1-based number. */
  datatype Entry = Entry(number: int, item: Case)

  /** What the case section shows. */
  datatype Listing = NoCaseData | Cases(region: Basin, entries: seq<Entry>)

  /** At most this many cases are shown (the `[:5]` slice). */
  const MaxShown: nat := 5

  const PollutionCases: map<string, seq<Case>> := map[
    "태평양" := [
      Case("태평양 거대 쓰레기 지대", "https://www.nationalgeographic.com/environment/article/great-pacific-garbage-patch"),
      Case("일본 후쿠시마 원전 오염수 방출 논란", "https://www.bbc.com/news/world-asia-66503073"),
      Case("북태평양 어류 미세플라스틱 검출 증가", "https://www.nature.com/articles/s41598-020-64465-9"),
      Case("적도 부근 산호초 백화현상", "https://www.noaa.gov/education/resource-collections/ocean-coasts/coral-reef-bleaching"),
      Case("알래스카 엑슨발데즈 기름 유출", "https://www.history.com/topics/1980s/exxon-valdez-oil-spill")
    ],
    "인도양" := [
      Case("모리셔스 기름 유출 사고(2020)", "https://www.unep.org/news-and-stories/story/mauritius-oil-spill"),
      Case("인도양 산호초 대규모 백화", "https://www.nature.com/articles/s41558-019-0595-7"),
      Case("소말리아 해안 불법 폐기물 투기", "https://www.theguardian.com/environment/2005/jul/18/waste.pollution"),
      Case("플라스틱 쓰레기 축적", "https://www.sciencedirect.com/science/article/pii/S0025326X18306812"),
      Case("해양 생태계 어종 감소", "https://www.fao.org/state-of-fisheries-aquaculture")
    ],
    "대서양" := [
      Case("대서양 거대 쓰레기 지대", "https://www.nationalgeographic.com/environment/article/north-atlantic-garbage-patch"),
      Case("멕시코만 딥워터 호라이즌 기름 유출", "https://www.britannica.com/event/Deepwater-Horizon-oil-spill-of-2010"),
      Case("북대서양 어류 개체수 감소", "https://www.pewtrusts.org/en/research-and-analysis/articles/2016/11/02/atlantic-fish-stocks-need-better-management"),
      Case("북해의 산업 오염", "https://www.greenpeace.org/international/press-release/4255/north-sea-pollution-crisis-calls-for-urgent-action/"),
      Case("지중해 연안 미세플라스틱 오염", "https://www.ocean.org/insights-and-solutions/solutions/plastic-pollution-mediterranean-sea")
    ],
    "남극해" := [
      Case("남극 대륙의 오존층 파괴", "https://www.nasa.gov/feature/goddard/2018/nasa-study-shows-first-direct-evidence-of-ozone-hole-recovery-due-to-cfc-bans"),
      Case("빙하 해빙과 해수면 상승", "https://climate.nasa.gov/vital-signs/ice-sheets/"),
      Case("크릴 새우 개체수 감소", "https://www.nationalgeographic.com/animals/article/krill-antarctic-warming"),
      Case("남극해 플라스틱 오염", "https://www.bas.ac.uk/media/antarctic-plastics/"),
      Case("해양 생물 종 분포 변화", "https://www.nature.com/articles/s41559-021-01607-x")
    ],
    "북극해" := [
      Case("북극의 급격한 해빙 가속화", "https://climate.nasa.gov/vital-signs/arctic-sea-ice/"),
      Case("북극 항로 개발로 인한 오염", "https://www.unep.org/news-and-stories/story/risks-and-rewards-new-arctic-shipping-routes"),
      Case("영구동토층 해빙으로 인한 메탄 방출", "https://www.nrdc.org/stories/permafrost-thaw"),
      Case("북극 오염 물질 축적", "https://www.arctic-council.org/exploring-the-arctic/environment/contaminants/"),
      Case("북극 생물 서식지 변화", "https://www.wwf.ca/arctic/species/")
    ]
  ]

  function Min(a: int, b: int): int { if a <= b then a else b }

  /** The `enumerate(cs, 1)` pairs. */
  function Numbered(cs: seq<Case>): (r: seq<Entry>)
    ensures |r| == |cs|
    ensures forall i :: 0 <= i < |r| ==> r[i] == Entry(i + 1, cs[i])
  {
    seq(|cs|, i requires 0 <= i < |cs| => Entry(i + 1, cs[i]))
  }

  /**
   * The case section for a classified point: a warning unless there is a
   * basin whose key is in the table, otherwise the first (at most) five
   * entries of its list, in table order, numbered from 1.
   */
  function CaseListing(table: map<string, seq<Case>>, region: Option<Basin>): (r: Listing)
    ensures r.NoCaseData? <==> region.None? || Key(region.value) !in table
    ensures r.Cases? ==>
              && r.region == region.value
              && |r.entries| == Min(MaxShown, |table[Key(r.region)]|)
              && forall i :: 0 <= i < |r.entries| ==>
                   r.entries[i].number == i + 1 && r.entries[i].item == table[Key(r.region)][i]
  {
    // `region and region in pollution_cases`: every key is a non-empty (truthy) string
    if region.Some? && Key(region.value) in table then
      var cs := table[Key(region.value)];
      Cases(region.value, Numbered(cs[..Min(MaxShown, |cs|)]))
    else
      NoCaseData
  }

  /** Every basin has a list of exactly five cases in the table, and the table has no other keys. */
  lemma TableCoversEveryBasin()
    ensures forall b: Basin :: Key(b) in PollutionCases && |PollutionCases[Key(b)]| == MaxShown
    ensures forall k :: k in PollutionCases ==> exists b: Basin :: Key(b) == k
  {
    forall b: Basin ensures Key(b) in PollutionCases && |PollutionCases[Key(b)]| == MaxShown {
      match b
      case Pacific =>
      case Indian =>
      case Atlantic =>
      case Southern =>
      case Arctic =>
    }
    forall k | k in PollutionCases ensures exists b: Basin :: Key(b) == k {
      if k == "태평양" { assert Key(Pacific) == k; }
      else if k == "인도양" { assert Key(Indian) == k; }
      else if k == "대서양" { assert Key(Atlantic) == k; }
      else if k == "남극해" { assert Key(Southern) == k; }
      else { assert Key(Arctic) == k; }
    }
  }

  /**
   * The lookup never fails for a classified point: every basin `FindRegion`
   * returns is a key of the table, and its whole five-case list is shown,
   * numbered 1 to 5. An unclassified point gets the warning.
   */
  lemma ClassifiedPointShowsFiveCases(lat: real, lon: real)
    ensures FindRegion(lat, lon).None? ==> CaseListing(PollutionCases, FindRegion(lat, lon)) == NoCaseData
    ensures FindRegion(lat, lon).Some? ==>
              var b := FindRegion(lat, lon).value;
              CaseListing(PollutionCases, FindRegion(lat, lon)) == Cases(b, Numbered(PollutionCases[Key(b)]))
              && |Numbered(PollutionCases[Key(b)])| == 5
  {
  }
}
