/** The element analysis of a chart: the element of a stem as a Chinese
    character (`getStemElementChar`), the tally of the pillars' stems
    (`countFiveElements`), the elements that do not occur
    (`findMissingElements`) and the favourable element
    (`findFavorableElement`). Branches and hidden stems are not tallied. */
module FiveElements {
  import opened Wrappers
  import opened Tables

  /** The keys of the counts dictionary, in the order it is built and iterated. */
  const ElementKeys: seq<string> := ["木", "火", "土", "金", "水"]

  const ElementKeySet: set<string> := {"木", "火", "土", "金", "水"}

  /** Each element has its own key. */
  lemma ElementNameKeys(a: Element, b: Element)
    ensures ElementName(a) in ElementKeySet
    ensures ElementName(a) == ElementName(b) ==> a == b
  {
  }

  lemma ElementKeysInOrder(i: nat)
    requires i < 5
    ensures ElementKeys[i] == ElementName(ElementAt(i))
    ensures IndexOf(ElementKeys, ElementKeys[i]) == i
  {
  }

  /** `getStemElementChar`: its own table, which agrees with the elements of
      `stemInfo`; '' for a key that is not a stem. */
  function GetStemElementChar(stemChar: string): (r: string)
    ensures StemOf(stemChar).None? ==> r == ""
    ensures StemOf(stemChar).Some? ==> r == ElementName(ElementOf(StemOf(stemChar).value))
  {
    if stemChar == "甲" || stemChar == "乙" then "木"
    else if stemChar == "丙" || stemChar == "丁" then "火"
    else if stemChar == "戊" || stemChar == "己" then "土"
    else if stemChar == "庚" || stemChar == "辛" then "金"
    else if stemChar == "壬" || stemChar == "癸" then "水"
    else ""
  }

  /** The element of a pillar's first character, when that character is a stem. */
  function PillarElement(pillar: string): Option<Element>
  {
    match StemOf(CharAt(pillar, 0))
    case None => None
    case Some(s) => Some(ElementOf(s))
  }

  /** How many of the pillars start with a stem of element `e`. */
  function CountOf(pillars: seq<string>, e: Element): (n: nat)
    ensures n <= |pillars|
  {
    if pillars == [] then 0
    else
      CountOf(pillars[..|pillars| - 1], e)
        + if PillarElement(pillars[|pillars| - 1]) == Some(e) then 1 else 0
  }

  /** How many of the pillars start with a stem at all. */
  function Recognised(pillars: seq<string>): (n: nat)
    ensures n <= |pillars|
  {
    if pillars == [] then 0
    else
      Recognised(pillars[..|pillars| - 1])
        + if PillarElement(pillars[|pillars| - 1]).Some? then 1 else 0
  }

  function TotalCount(pillars: seq<string>): nat
  {
    CountOf(pillars, Wood) + CountOf(pillars, Fire) + CountOf(pillars, Earth)
      + CountOf(pillars, Metal) + CountOf(pillars, Water)
  }

  /** The five counts add up to the number of pillars that start with a stem. */
  lemma {:induction false} CountsAddUp(pillars: seq<string>)
    ensures TotalCount(pillars) == Recognised(pillars)
  {
    if pillars != [] {
      CountsAddUp(pillars[..|pillars| - 1]);
    }
  }

  /** With fewer than five pillars, some element has no count. */
  lemma SomeElementMissing(pillars: seq<string>)
    requires |pillars| < 5
    ensures !(forall e :: CountOf(pillars, e) > 0)
  {
    CountsAddUp(pillars);
    assert TotalCount(pillars) < 5;
  }

  /** One step of the counting loop adds the pillar to its element's count. */
  lemma TallyStep(before: map<string, nat>, pillar: string)
    requires before.Keys == ElementKeySet
    ensures var c := GetStemElementChar(CharAt(pillar, 0));
      var after := if c in before then before[c := before[c] + 1] else before;
      && after.Keys == ElementKeySet
      && forall e :: after[ElementName(e)]
           == before[ElementName(e)] + if PillarElement(pillar) == Some(e) then 1 else 0
  {
    var stem := CharAt(pillar, 0);
    forall e
      ensures ElementName(e) in ElementKeySet
    {
      ElementNameKeys(e, e);
    }
    match StemOf(stem)
    case None =>
      assert GetStemElementChar(stem) !in before;
    case Some(s) =>
      forall e
        ensures ElementName(e) == ElementName(ElementOf(s)) ==> e == ElementOf(s)
      {
        ElementNameKeys(e, ElementOf(s));
      }
  }

  /** `countFiveElements`: one count per element key, counting the pillars
      (in key order) whose first character is a stem of that element. */
  method CountFiveElements(pillars: seq<string>) returns (counts: map<string, nat>)
    ensures counts.Keys == ElementKeySet
    ensures forall e :: counts[ElementName(e)] == CountOf(pillars, e)
  {
    counts := map["木" := 0, "火" := 0, "土" := 0, "金" := 0, "水" := 0];
    var i := 0;
    while i < |pillars|
      invariant i <= |pillars|
      invariant counts.Keys == ElementKeySet
      invariant forall e :: counts[ElementName(e)] == CountOf(pillars[..i], e)
    {
      var stem := CharAt(pillars[i], 0);
      var elemChar := GetStemElementChar(stem);
      TallyStep(counts, pillars[i]);
      assert pillars[..i + 1][..i] == pillars[..i];
      if elemChar in counts {
        counts := counts[elemChar := counts[elemChar] + 1];
      }
      i := i + 1;
    }
    assert pillars[..i] == pillars;
  }

  /** The keys, in order, whose count is zero. */
  function ZeroKeys(keys: seq<string>, counts: map<string, nat>): seq<string>
    requires forall k :: k in keys ==> k in counts
  {
    if keys == [] then []
    else
      var last := keys[|keys| - 1];
      ZeroKeys(keys[..|keys| - 1], counts) + if counts[last] == 0 then [last] else []
  }

  /** Exactly the keys with a zero count are listed. */
  lemma {:induction false} ZeroKeysMembers(keys: seq<string>, counts: map<string, nat>, k: string)
    requires forall k :: k in keys ==> k in counts
    ensures k in ZeroKeys(keys, counts) <==> k in keys && counts[k] == 0
  {
    if keys != [] {
      var init := keys[..|keys| - 1];
      assert keys == init + [keys[|keys| - 1]];
      ZeroKeysMembers(init, counts, k);
    }
  }

  /** The listed keys keep their order: each sits at a strictly later position
      of `keys` than the one before it. */
  lemma {:induction false} ZeroKeysPositions(keys: seq<string>, counts: map<string, nat>)
    returns (at: seq<nat>)
    requires forall k :: k in keys ==> k in counts
    ensures |at| == |ZeroKeys(keys, counts)|
    ensures forall a :: 0 <= a < |at| ==> at[a] < |keys| && ZeroKeys(keys, counts)[a] == keys[at[a]]
    ensures forall a, b :: 0 <= a < b < |at| ==> at[a] < at[b]
  {
    if keys == [] {
      at := [];
    } else {
      var init := keys[..|keys| - 1];
      at := ZeroKeysPositions(init, counts);
      if counts[keys[|keys| - 1]] == 0 {
        at := at + [|keys| - 1];
      }
    }
  }

  /** `findMissingElements`: exactly the keys whose count is zero, in key order. */
  method FindMissingElements(counts: map<string, nat>) returns (missing: seq<string>)
    requires counts.Keys == ElementKeySet
    ensures missing == ZeroKeys(ElementKeys, counts)
    ensures forall k :: k in missing <==> k in counts && counts[k] == 0
    ensures forall a, b :: 0 <= a < b < |missing| ==>
      IndexOf(ElementKeys, missing[a]) < IndexOf(ElementKeys, missing[b])
  {
    missing := [];
    var i := 0;
    while i < |ElementKeys|
      invariant i <= |ElementKeys|
      invariant missing == ZeroKeys(ElementKeys[..i], counts)
    {
      var elem := ElementKeys[i];
      assert ElementKeys[..i + 1][..i] == ElementKeys[..i];
      if counts[elem] == 0 {
        missing := missing + [elem];
      }
      i := i + 1;
    }
    assert ElementKeys[..i] == ElementKeys;
    forall k
      ensures k in missing <==> k in counts && counts[k] == 0
    {
      ZeroKeysMembers(ElementKeys, counts, k);
    }
    var at := ZeroKeysPositions(ElementKeys, counts);
    forall a | 0 <= a < |missing|
      ensures IndexOf(ElementKeys, missing[a]) == at[a]
    {
      ElementKeysInOrder(at[a]);
    }
  }

  /** `counts[key] || 0`. */
  function Get(counts: map<string, nat>, key: string): (n: nat)
    ensures key in counts ==> n == counts[key]
    ensures n == 0 <==> key !in counts || counts[key] == 0
  {
    if key in counts then counts[key] else 0
  }

  /** `findFavorableElement`: '' for a key that is not a stem; otherwise, when
      the Day Master's element and its resource together count at least 2, the
      element that controls the Day Master, else the element that produces it;
      never the Day Master's own element. */
  function FindFavorableElement(dayStem: string, counts: map<string, nat>): (r: string)
    ensures r == "" <==> StemOf(dayStem).None?
    ensures StemOf(dayStem).Some? ==>
      var dm := ElementOf(StemOf(dayStem).value);
      var strong := Get(counts, ElementName(dm)) + Get(counts, ElementName(Resources(dm))) >= 2;
      && ElementNamed(r).Some?
      && ElementNamed(r).value != dm
      && (strong ==> Wealth(ElementNamed(r).value) == dm)
      && (!strong ==> Outputs(ElementNamed(r).value) == dm)
    ensures StemOf(dayStem).Some? ==> r != ElementName(ElementOf(StemOf(dayStem).value))
  {
    match StemOf(dayStem)
    case None => ""
    case Some(s) =>
      var dmElem := ElementOf(s);
      var resourceElem := Resources(dmElem);
      var strength := Get(counts, ElementName(dmElem)) + Get(counts, ElementName(resourceElem));
      var isStrong := strength >= 2;
      var controllingElem := Officer(dmElem);
      ElementNameKeys(controllingElem, dmElem);
      ElementNameKeys(resourceElem, dmElem);
      if isStrong then ElementName(controllingElem) else ElementName(resourceElem)
  }
}
