/** The Ten-God classifier: how a stem relates to the Day Master through the
    element maps and the two yin flags (`calculateTenGod`), and the same
    classification applied to the hidden stems of a branch
    (`calculateBranchTenGods`). */
module TenGods {
  import opened Wrappers
  import opened Tables

  datatype TenGod =
    | BiJian | JieCai        // same element
    | ShiShen | ShangGuan    // the Day Master produces it
    | ZhengCai | PianCai     // the Day Master controls it
    | ZhengYin | PianYin     // it produces the Day Master
    | ZhengGuan | QiSha      // it controls the Day Master

  /** The label the engine returns for each Ten God. */
  function Label(g: TenGod): (r: string)
    ensures |r| == 2
  {
    match g
    case BiJian => "比肩"
    case JieCai => "劫财"
    case ShiShen => "食神"
    case ShangGuan => "伤官"
    case ZhengCai => "正财"
    case PianCai => "偏财"
    case ZhengYin => "正印"
    case PianYin => "偏印"
    case ZhengGuan => "正官"
    case QiSha => "七杀"
  }

  /** The five rules on two known stems, first match wins: same element,
      outputs, wealth, resources, officer. Within each rule, MATCHING yin flags
      give the first label of the pair. None when no rule fires, which never
      happens: the five relations cover every pair of elements. */
  function Classify(dm: Stem, other: Stem): (r: Option<TenGod>)
    ensures r.Some?
  {
    var d, o := ElementOf(dm), ElementOf(other);
    RelationByStep(d, o);
    var same := IsYin(dm) == IsYin(other);
    if o == d then Some(if same then BiJian else JieCai)
    else if Outputs(d) == o then Some(if same then ShiShen else ShangGuan)
    else if Wealth(d) == o then Some(if same then ZhengCai else PianCai)
    else if Resources(d) == o then Some(if same then ZhengYin else PianYin)
    else if Officer(d) == o then Some(if same then ZhengGuan else QiSha)
    else None
  }

  // ------------------------------------------------- reference by cycle step

  /** How many steps along the production cycle lead from `d` to `o`. */
  function CycleStep(d: Element, o: Element): (k: nat)
    ensures k < 5
  {
    (ElementIndex(o) - ElementIndex(d)) % 5
  }

  /** The Ten God for a cycle step and for whether the yin flags match. */
  function CycleTenGod(step: nat, same: bool): TenGod
    requires step < 5
  {
    if step == 0 then (if same then BiJian else JieCai)
    else if step == 1 then (if same then ShiShen else ShangGuan)
    else if step == 2 then (if same then ZhengCai else PianCai)
    else if step == 3 then (if same then ZhengGuan else QiSha)
    else (if same then ZhengYin else PianYin)
  }

  /** Reference classification: a function of the cycle step between the two
      elements and of whether the yin flags match, and of nothing else. */
  function TenGodOf(dm: Stem, other: Stem): TenGod
  {
    CycleTenGod(CycleStep(ElementOf(dm), ElementOf(other)), IsYin(dm) == IsYin(other))
  }

  /** The first label of each pair, the one the matching-flag branch returns. */
  predicate MatchingPolarity(g: TenGod)
  {
    g.BiJian? || g.ShiShen? || g.ZhengCai? || g.ZhengYin? || g.ZhengGuan?
  }

  /** The cycle step a Ten God stands for. */
  function StepOf(g: TenGod): (k: nat)
    ensures k < 5 && CycleTenGod(k, MatchingPolarity(g)) == g
  {
    match g
    case BiJian => 0
    case JieCai => 0
    case ShiShen => 1
    case ShangGuan => 1
    case ZhengCai => 2
    case PianCai => 2
    case ZhengGuan => 3
    case QiSha => 3
    case ZhengYin => 4
    case PianYin => 4
  }

  /** Exactly one of the five rules fires for any two known stems, and the
      one that fires is the one the cycle step names. */
  lemma ClassifyByCycle(dm: Stem, other: Stem)
    ensures Classify(dm, other) == Some(TenGodOf(dm, other))
  {
    RelationByStep(ElementOf(dm), ElementOf(other));
  }

  /** Each of the five relations is one step count along the production cycle. */
  lemma RelationByStep(d: Element, o: Element)
    ensures CycleStep(d, o) == 0 <==> o == d
    ensures CycleStep(d, o) == 1 <==> Outputs(d) == o
    ensures CycleStep(d, o) == 2 <==> Wealth(d) == o
    ensures CycleStep(d, o) == 3 <==> Officer(d) == o
    ensures CycleStep(d, o) == 4 <==> Resources(d) == o
  {
    var a, b := ElementIndex(d), ElementIndex(o);
    StepCases(a, b);
    assert ElementAt(ElementIndex(Outputs(d))) == Outputs(d);
    assert ElementAt(ElementIndex(Wealth(d))) == Wealth(d);
    assert ElementAt(ElementIndex(Officer(d))) == Officer(d);
    assert ElementAt(ElementIndex(Resources(d))) == Resources(d);
  }

  /** The five step counts between two cycle positions. */
  lemma StepCases(a: int, b: int)
    requires 0 <= a < 5 && 0 <= b < 5
    ensures (b - a) % 5 == 0 <==> b == a
    ensures (b - a) % 5 == 1 <==> b == (a + 1) % 5
    ensures (b - a) % 5 == 2 <==> b == (a + 2) % 5
    ensures (b - a) % 5 == 3 <==> b == (a + 3) % 5
    ensures (b - a) % 5 == 4 <==> b == (a + 4) % 5
  {
    if b < a {
      assert (b - a) % 5 == b - a + 5;
    }
  }

  /** The label depends only on the relation and on whether the flags match. */
  lemma PolarityDecidesLabel(dm: Stem, other: Stem)
    ensures MatchingPolarity(TenGodOf(dm, other)) <==> IsYin(dm) == IsYin(other)
    ensures StepOf(TenGodOf(dm, other)) == CycleStep(ElementOf(dm), ElementOf(other))
  {
  }

  /** Stepping forward by the distance between two cycle positions. */
  lemma StepArithmetic(a: int, b: int)
    requires 0 <= a < 5 && 0 <= b < 5
    ensures (a + (b - a) % 5) % 5 == b
  {
    if b < a {
      assert (b - a) % 5 == b - a + 5;
    }
  }

  lemma StepForward(a: int, k: int)
    requires 0 <= a < 5 && 0 <= k < 5
    ensures ((a + k) % 5 - a) % 5 == k
  {
    if a + k >= 5 {
      assert (a + k) % 5 == a + k - 5;
    }
  }

  /** The stem that stands in relation `g` to the Day Master `dm`. */
  function StemFor(dm: Stem, g: TenGod): (s: Stem)
    ensures TenGodOf(dm, s) == g
  {
    var d := ElementIndex(ElementOf(dm));
    var e := ElementAt((d + StepOf(g)) % 5);
    var s := StemWith(e, if MatchingPolarity(g) then IsYin(dm) else !IsYin(dm));
    ElementAtIndex((d + StepOf(g)) % 5);
    StepForward(d, StepOf(g));
    s
  }

  /** Round trip: the label of a stem leads back to that stem, so for a fixed
      Day Master the ten stems receive the ten labels once each. */
  lemma TenGodRoundTrip(dm: Stem, other: Stem)
    ensures StemFor(dm, TenGodOf(dm, other)) == other
  {
    var d, o := ElementIndex(ElementOf(dm)), ElementIndex(ElementOf(other));
    var g := TenGodOf(dm, other);
    PolarityDecidesLabel(dm, other);
    StepArithmetic(d, o);
    var s := StemFor(dm, g);
    assert ElementOf(s) == ElementAt(o) == ElementOf(other);
    assert IsYin(s) == IsYin(other);
    StemDeterminedByInfo(s, other);
  }

  // ------------------------------------------------------- the engine's API

  /** `calculateTenGod`: '' when either key is not a stem; otherwise the label
      of the relation, which is never ''. */
  function CalculateTenGod(dayStem: string, otherStem: string): (r: string)
    ensures r != "" <==> StemOf(dayStem).Some? && StemOf(otherStem).Some?
    ensures r != "" ==> r == Label(TenGodOf(StemOf(dayStem).value, StemOf(otherStem).value))
  {
    if StemOf(dayStem).None? || StemOf(otherStem).None? then ""
    else
      var dm, other := StemOf(dayStem).value, StemOf(otherStem).value;
      ClassifyByCycle(dm, other);
      match Classify(dm, other)
      case Some(g) => Label(g)
      case None => ""
  }

  /** '比肩' is given exactly to a known stem compared with itself. */
  lemma {:induction false} BiJianIffSameStem(dayStem: string, otherStem: string)
    ensures CalculateTenGod(dayStem, otherStem) == "比肩"
        <==> StemOf(dayStem).Some? && dayStem == otherStem
  {
    var r := CalculateTenGod(dayStem, otherStem);
    if r == "比肩" {
      var dm, other := StemOf(dayStem).value, StemOf(otherStem).value;
      assert TenGodOf(dm, other) == BiJian;
      PolarityDecidesLabel(dm, other);
      StemDeterminedByInfo(dm, other);
    }
  }

  /** `calculateBranchTenGods`: the labels of the branch's hidden stems, in
      their order; [] for a key that is not a branch. */
  function CalculateBranchTenGods(dayStem: string, branchChar: string): (r: seq<string>)
    ensures BranchOf(branchChar).None? ==> r == []
    ensures BranchOf(branchChar).Some? ==> |r| == |HiddenStems(BranchOf(branchChar).value)|
    ensures StemOf(dayStem).None? ==> forall i :: 0 <= i < |r| ==> r[i] == ""
    ensures StemOf(dayStem).Some? && BranchOf(branchChar).Some? ==>
      forall i :: 0 <= i < |r| ==>
        r[i] == Label(TenGodOf(StemOf(dayStem).value, HiddenStems(BranchOf(branchChar).value)[i]))
  {
    match BranchOf(branchChar)
    case None => []
    case Some(b) =>
      var hs := HiddenStems(b);
      assert forall i :: 0 <= i < |hs| ==> StemOf(StemChar(hs[i])) == Some(hs[i]) by {
        forall i | 0 <= i < |hs| ensures StemOf(StemChar(hs[i])) == Some(hs[i]) {
          StemCharRoundTrip(hs[i]);
        }
      }
      seq(|hs|, i requires 0 <= i < |hs| => CalculateTenGod(dayStem, StemChar(hs[i])))
  }

  /** The hidden stems of one branch never share a label. */
  lemma BranchLabelsDistinct(dm: Stem, b: Branch, i: nat, j: nat)
    requires i < j < |HiddenStems(b)|
    ensures TenGodOf(dm, HiddenStems(b)[i]) != TenGodOf(dm, HiddenStems(b)[j])
  {
    TenGodRoundTrip(dm, HiddenStems(b)[i]);
    TenGodRoundTrip(dm, HiddenStems(b)[j]);
  }
}
