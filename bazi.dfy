/** Chart assembly (`calculateBazi`): the lunar-calendar conversion gives the
    year, month and day pillars; the hour pillar is derived from the day stem
    and the birth hour; every stem and hidden stem is labelled against the Day
    Master; and the pillars' stems are tallied by element. */
module Bazi {
  import opened Wrappers
  import opened Tables
  import opened TenGods
  import opened HourPillar
  import opened FiveElements

  /** The sexagenary fields of a lunar-calendar result (`GanZhiYear`,
      `GanZhiMonth`, `GanZhiDay`); None for a field the result lacks. */
  datatype LunarDate = LunarDate(
    ganZhiYear: Option<string>,
    ganZhiMonth: Option<string>,
    ganZhiDay: Option<string>)

  /** The three errors `calculateBazi` throws. */
  datatype BaziError =
    | ConversionFailed             // no lunar result
    | MissingGanZhi                // a sexagenary field is absent or empty
    | UnknownDayStem(dayStem: string)  // the day pillar does not start with a stem

  /** The message each error is thrown with. The message of an unknown day
      stem ends with the offending key, so no two errors share a message. */
  function Message(e: BaziError): (r: string)
    ensures e.UnknownDayStem? ==> |r| == 7 + |e.dayStem| && r[7..] == e.dayStem
    ensures !e.UnknownDayStem? ==> |r| == 6
  {
    match e
    case ConversionFailed => "農曆轉換失敗"
    case MissingGanZhi => "缺少干支數據"
    case UnknownDayStem(s) => "找不到日干: " + s
  }

  /** One entry of `shishenDetail`: the stem's label and the hidden stems' labels. */
  datatype PillarDetail = PillarDetail(stem: string, branch: seq<string>)

  /** The pillar keys, in the order every per-pillar list below follows. */
  const PillarKeys: seq<string> := ["年柱", "月柱", "日柱", "時柱"]

  /** The label the day pillar's own stem receives. */
  const DayMasterLabel: string := "日主"

  datatype Chart = Chart(
    pillars: seq<string>,
    shishen: seq<string>,
    branchTenGods: seq<seq<string>>,
    shishenDetail: seq<PillarDetail>,
    fiveElementCounts: map<string, nat>,
    missingElements: seq<string>,
    favorableElement: string)

  /** JavaScript truthiness of a sexagenary field: present and not empty. */
  predicate Present(field: Option<string>)
  {
    field.Some? && field.value != ""
  }

  predicate Complete(l: LunarDate)
  {
    Present(l.ganZhiYear) && Present(l.ganZhiMonth) && Present(l.ganZhiDay)
  }

  /** The key `dayGZ[0]` of a complete lunar result. */
  function DayStemKey(l: LunarDate): string
    requires Complete(l)
  {
    CharAt(l.ganZhiDay.value, 0)
  }

  /** Steps 5 and 6 of the assembly: the stems labelled against the Day Master
      (the day pillar's own stem as '日主'), the hidden stems of each pillar's
      branch labelled the same way, and both combined per pillar. */
  ghost predicate LabelledAs(c: Chart, y: string, m: string, d: string, timeGan: string, timeZhi: string)
  {
    var dayStem := CharAt(d, 0);
    && c.shishen == [CalculateTenGod(dayStem, CharAt(y, 0)), CalculateTenGod(dayStem, CharAt(m, 0)),
                     DayMasterLabel, CalculateTenGod(dayStem, timeGan)]
    && c.branchTenGods == [CalculateBranchTenGods(dayStem, CharAt(y, 1)),
                           CalculateBranchTenGods(dayStem, CharAt(m, 1)),
                           CalculateBranchTenGods(dayStem, CharAt(d, 1)),
                           CalculateBranchTenGods(dayStem, timeZhi)]
    && |c.shishenDetail| == |PillarKeys|
    && (forall i :: 0 <= i < |PillarKeys| ==>
          c.shishenDetail[i].stem == c.shishen[i] && c.shishenDetail[i].branch == c.branchTenGods[i])
  }

  /** Step 7 of the assembly: the element tally of the pillars' stems, exactly
      the keys with no count in key order, and the favourable element. */
  ghost predicate AnalysedAs(c: Chart, dayStem: string)
  {
    && c.fiveElementCounts.Keys == ElementKeySet
    && (forall e :: c.fiveElementCounts[ElementName(e)] == CountOf(c.pillars, e))
    && (forall k :: k in c.missingElements <==> k in c.fiveElementCounts && c.fiveElementCounts[k] == 0)
    && (forall a, b :: 0 <= a < b < |c.missingElements| ==>
          IndexOf(ElementKeys, c.missingElements[a]) < IndexOf(ElementKeys, c.missingElements[b]))
    && c.favorableElement == FindFavorableElement(dayStem, c.fiveElementCounts)
  }

  /** `calculateBazi`, with the lunar-calendar library passed in as
      `solarToLunar` and the birth hour already parsed. It fails exactly when
      the conversion gives nothing, when a sexagenary field is missing, or when
      the day pillar does not start with one of the ten stems, checked in that
      order. On success the chart holds the three lunar pillars and a valid
      sexagenary hour pillar derived from the Day Master, with every stem and
      hidden stem labelled and the element analysis of the four stems. */
  method CalculateBazi(
    solarToLunar: (int, int, int) -> Option<LunarDate>,
    year: int, month: int, day: int, hour: nat)
    returns (r: Result<Chart, BaziError>)
    ensures r == Failure(ConversionFailed) <==> solarToLunar(year, month, day).None?
    ensures r == Failure(MissingGanZhi)
        <==> solarToLunar(year, month, day).Some? && !Complete(solarToLunar(year, month, day).value)
    ensures r.Failure? && r.error.UnknownDayStem?
        <==> && solarToLunar(year, month, day).Some?
             && Complete(solarToLunar(year, month, day).value)
             && StemOf(DayStemKey(solarToLunar(year, month, day).value)).None?
    ensures r.Failure? && r.error.UnknownDayStem? ==>
      r.error.dayStem == DayStemKey(solarToLunar(year, month, day).value)
    ensures r.Success? ==>
      var l := solarToLunar(year, month, day).value;
      var y, m, d := l.ganZhiYear.value, l.ganZhiMonth.value, l.ganZhiDay.value;
      var hp := HourPillarOf(StemOf(DayStemKey(l)).value, hour);
      && IsSexagenary(hp.0, hp.1)
      && r.value.pillars == [y, m, d, StemChar(hp.0) + BranchChar(hp.1)]
      && LabelledAs(r.value, y, m, d, StemChar(hp.0), BranchChar(hp.1))
      && AnalysedAs(r.value, DayStemKey(l))
  {
    var lunar := solarToLunar(year, month, day);
    if lunar.None? {
      return Failure(ConversionFailed);
    }
    var yearGZ, monthGZ, dayGZ := lunar.value.ganZhiYear, lunar.value.ganZhiMonth, lunar.value.ganZhiDay;
    if !Present(yearGZ) || !Present(monthGZ) || !Present(dayGZ) {
      return Failure(MissingGanZhi);
    }
    var y, m, d := yearGZ.value, monthGZ.value, dayGZ.value;

    // the hour pillar
    var shichen := HourSlot(hour);
    var dayStem := CharAt(d, 0);
    var dayStemIndex := IndexOf(Tiangan, dayStem);
    IndexOfTiangan(dayStem);
    if dayStemIndex == -1 {
      return Failure(UnknownDayStem(dayStem));
    }
    var timeGanIndex := HourStemIndex(dayStemIndex, shichen);
    var timeGan := Tiangan[timeGanIndex];
    var timeZhi := Dizhi[shichen];
    ghost var hp := HourPillarOf(StemOf(dayStem).value, hour);
    StemAtIndex(timeGanIndex);
    BranchAtIndex(shichen);
    assert timeGan == StemChar(hp.0) && timeZhi == BranchChar(hp.1);

    var chart := AssembleChart(y, m, d, timeGan, timeZhi);
    r := Success(chart);
  }

  /** Steps 4 to 7 of `calculateBazi`, once the hour pillar is known. */
  method AssembleChart(y: string, m: string, d: string, timeGan: string, timeZhi: string)
    returns (c: Chart)
    ensures c.pillars == [y, m, d, timeGan + timeZhi]
    ensures LabelledAs(c, y, m, d, timeGan, timeZhi)
    ensures AnalysedAs(c, CharAt(d, 0))
  {
    var dayStem := CharAt(d, 0);
    var pillars := [y, m, d, timeGan + timeZhi];

    // Ten Gods of the stems, then of the hidden stems
    var stemTenGod := [CalculateTenGod(dayStem, CharAt(y, 0)), CalculateTenGod(dayStem, CharAt(m, 0)),
                       DayMasterLabel, CalculateTenGod(dayStem, timeGan)];
    var branchTenGod := [CalculateBranchTenGods(dayStem, CharAt(y, 1)),
                         CalculateBranchTenGods(dayStem, CharAt(m, 1)),
                         CalculateBranchTenGods(dayStem, CharAt(d, 1)),
                         CalculateBranchTenGods(dayStem, timeZhi)];
    var shishenDetail := CombineDetail(stemTenGod, branchTenGod);

    // the element analysis
    var fiveElementCounts := CountFiveElements(pillars);
    var missingElements := FindMissingElements(fiveElementCounts);
    var favorableElement := FindFavorableElement(dayStem, fiveElementCounts);

    c := Chart(pillars, stemTenGod, branchTenGod, shishenDetail,
               fiveElementCounts, missingElements, favorableElement);
  }

  /** The `shishenDetail` loop: for each pillar key in order, the stem's
      label together with the hidden stems' labels. */
  method CombineDetail(stemTenGod: seq<string>, branchTenGod: seq<seq<string>>)
    returns (shishenDetail: seq<PillarDetail>)
    requires |stemTenGod| == |branchTenGod| == |PillarKeys|
    ensures |shishenDetail| == |PillarKeys|
    ensures forall i :: 0 <= i < |PillarKeys| ==>
      shishenDetail[i].stem == stemTenGod[i] && shishenDetail[i].branch == branchTenGod[i]
  {
    shishenDetail := [];
    var i := 0;
    while i < |PillarKeys|
      invariant i <= |PillarKeys|
      invariant |shishenDetail| == i
      invariant forall j :: 0 <= j < i ==>
        shishenDetail[j].stem == stemTenGod[j] && shishenDetail[j].branch == branchTenGod[j]
    {
      shishenDetail := shishenDetail + [PillarDetail(stemTenGod[i], branchTenGod[i])];
      i := i + 1;
    }
  }

  /** The labels of a successful chart with hour pillar `s` `b`: the Day
      Master is labelled '日主', the hour stem gets a real label, and the hour
      branch one label per hidden stem. */
  lemma ChartLabels(c: Chart, y: string, m: string, d: string, s: Stem, b: Branch)
    requires StemOf(CharAt(d, 0)).Some?
    requires LabelledAs(c, y, m, d, StemChar(s), BranchChar(b))
    ensures c.shishen[2] == DayMasterLabel
    ensures c.shishen[3] == Label(TenGodOf(StemOf(CharAt(d, 0)).value, s)) != ""
    ensures |c.branchTenGods[3]| == |HiddenStems(b)|
  {
    StemCharRoundTrip(s);
    BranchCharRoundTrip(b);
  }

  /** The element analysis of a successful chart: the four stems tally between
      2 and 4 (4 when the year and month pillars also start with stems); since
      four stems cannot cover five elements, some element is always missing. */
  lemma ChartElements(c: Chart, s: Stem, b: Branch)
    requires |c.pillars| == 4
    requires StemOf(CharAt(c.pillars[2], 0)).Some?
    requires c.pillars[3] == StemChar(s) + BranchChar(b)
    requires forall e ::
      ElementName(e) in c.fiveElementCounts && c.fiveElementCounts[ElementName(e)] == CountOf(c.pillars, e)
    requires forall k ::
      k in c.missingElements <==> k in c.fiveElementCounts && c.fiveElementCounts[k] == 0
    ensures 2 <= TotalCount(c.pillars) <= 4
    ensures StemOf(CharAt(c.pillars[0], 0)).Some? && StemOf(CharAt(c.pillars[1], 0)).Some?
        ==> TotalCount(c.pillars) == 4
    ensures c.missingElements != []
  {
    StemCharRoundTrip(s);
    CharAtConcat(StemChar(s), BranchChar(b));
    FourPillarsTally(c.pillars);
    SomeElementMissing(c.pillars);
    MissingNonEmpty(c.fiveElementCounts, c.missingElements, c.pillars);
  }

  /** Tally bounds for four pillars whose day and hour pillars start with stems. */
  lemma FourPillarsTally(pillars: seq<string>)
    requires |pillars| == 4
    requires StemOf(CharAt(pillars[2], 0)).Some? && StemOf(CharAt(pillars[3], 0)).Some?
    ensures 2 <= TotalCount(pillars) <= 4
    ensures StemOf(CharAt(pillars[0], 0)).Some? && StemOf(CharAt(pillars[1], 0)).Some?
        ==> TotalCount(pillars) == 4
  {
    CountsAddUp(pillars);
    var p3, p2, p1 := pillars[..3], pillars[..2], pillars[..1];
    assert p3[..2] == p2 && p2[..1] == p1 && p1[..0] == [];
    assert pillars[..|pillars| - 1] == p3 && p3[..|p3| - 1] == p2 && p2[..|p2| - 1] == p1;
    assert p3[2] == pillars[2] && p2[1] == pillars[1] && p1[0] == pillars[0];
    assert Recognised(p1) == if PillarElement(pillars[0]).Some? then 1 else 0;
    assert Recognised(p2) == Recognised(p1) + if PillarElement(pillars[1]).Some? then 1 else 0;
    assert Recognised(p3) == Recognised(p2) + 1;
    assert Recognised(pillars) == Recognised(p3) + 1;
  }

  /** A tally in which some element has no count leaves some key missing. */
  lemma MissingNonEmpty(counts: map<string, nat>, missing: seq<string>, pillars: seq<string>)
    requires forall e :: ElementName(e) in counts && counts[ElementName(e)] == CountOf(pillars, e)
    requires forall k :: k in missing <==> k in counts && counts[k] == 0
    requires !(forall e :: CountOf(pillars, e) > 0)
    ensures missing != []
  {
    var e :| CountOf(pillars, e) == 0;
    assert ElementName(e) in missing;
  }
}
