/** The fixed relation tables of the chart engine: the ten Heavenly Stems, the
    twelve Earthly Branches, each stem's element and yin flag, each branch's
    hidden stems, and the four element maps used by the Ten-God classifier. */
module Tables {
  import opened Wrappers

  datatype Element = Wood | Fire | Earth | Metal | Water

  datatype Stem = Jia | Yi | Bing | Ding | Wu | Ji | Geng | Xin | Ren | Gui

  datatype Branch = Zi | Chou | Yin | Mao | Chen | Si | Wu | Wei | Shen | You | Xu | Hai

  /** TIANGAN, the stems in cycle order. */
  const Tiangan: seq<string> := ["甲", "乙", "丙", "丁", "戊", "己", "庚", "辛", "壬", "癸"]

  /** DIZHI, the branches in cycle order. */
  const Dizhi: seq<string> := ["子", "丑", "寅", "卯", "辰", "巳", "午", "未", "申", "酉", "戌", "亥"]

  // ---------------------------------------------------------------- elements

  /** Position of an element on the production cycle wood, fire, earth, metal, water. */
  function ElementIndex(e: Element): (i: nat)
    ensures i < 5 && ElementAt(i) == e
  {
    match e
    case Wood => 0
    case Fire => 1
    case Earth => 2
    case Metal => 3
    case Water => 4
  }

  function ElementAt(i: nat): Element
    requires i < 5
  {
    [Wood, Fire, Earth, Metal, Water][i]
  }

  lemma ElementAtIndex(i: nat)
    requires i < 5
    ensures ElementIndex(ElementAt(i)) == i
  {
  }

  /** The Chinese name of an element (`toCN` inside findFavorableElement): one
      character, read off 木火土金水 at the element's place on the production cycle. */
  function ElementName(e: Element): (r: string)
    ensures |r| == 1 && r[0] == "木火土金水"[ElementIndex(e)]
  {
    match e
    case Wood => "木"
    case Fire => "火"
    case Earth => "土"
    case Metal => "金"
    case Water => "水"
  }

  /** The inverse of ElementName: which element, if any, a key names. */
  function ElementNamed(key: string): (r: Option<Element>)
    ensures r.Some? ==> ElementName(r.value) == key
    ensures r.None? ==> forall e :: ElementName(e) != key
  {
    if key == "木" then Some(Wood)
    else if key == "火" then Some(Fire)
    else if key == "土" then Some(Earth)
    else if key == "金" then Some(Metal)
    else if key == "水" then Some(Water)
    else None
  }

  /** The `outputs` map: the element the Day Master's element produces. */
  function Outputs(e: Element): (r: Element)
    ensures ElementIndex(r) == (ElementIndex(e) + 1) % 5
  {
    match e
    case Wood => Fire
    case Fire => Earth
    case Earth => Metal
    case Metal => Water
    case Water => Wood
  }

  /** The `resources` map: the element that produces the Day Master's element. */
  function Resources(e: Element): (r: Element)
    ensures Outputs(r) == e
    ensures ElementIndex(r) == (ElementIndex(e) + 4) % 5
  {
    match e
    case Wood => Water
    case Fire => Wood
    case Earth => Fire
    case Metal => Earth
    case Water => Metal
  }

  /** The `wealth` map: the element the Day Master's element controls. */
  function Wealth(e: Element): (r: Element)
    ensures ElementIndex(r) == (ElementIndex(e) + 2) % 5
  {
    match e
    case Wood => Earth
    case Fire => Metal
    case Earth => Water
    case Metal => Wood
    case Water => Fire
  }

  /** The `officer` map: the element that controls the Day Master's element. */
  function Officer(e: Element): (r: Element)
    ensures Wealth(r) == e
    ensures ElementIndex(r) == (ElementIndex(e) + 3) % 5
  {
    match e
    case Wood => Metal
    case Fire => Water
    case Earth => Wood
    case Metal => Fire
    case Water => Earth
  }

  // ------------------------------------------------------------------- stems

  function StemAt(i: nat): Stem
    requires i < 10
  {
    [Jia, Yi, Bing, Ding, Stem.Wu, Ji, Geng, Xin, Ren, Gui][i]
  }

  /** Position of a stem in TIANGAN. */
  function StemIndex(s: Stem): (i: nat)
    ensures i < 10 && StemAt(i) == s
  {
    match s
    case Jia => 0
    case Yi => 1
    case Bing => 2
    case Ding => 3
    case Wu => 4
    case Ji => 5
    case Geng => 6
    case Xin => 7
    case Ren => 8
    case Gui => 9
  }

  /** The character that names a stem. */
  function StemChar(s: Stem): (c: string)
    ensures |c| == 1
  {
    Tiangan[StemIndex(s)]
  }

  /** The key lookup `stemInfo[key]`: which stem, if any, the key names. */
  function StemOf(key: string): (r: Option<Stem>)
    ensures r.Some? ==> StemChar(r.value) == key
  {
    if key == "甲" then Some(Jia)
    else if key == "乙" then Some(Yi)
    else if key == "丙" then Some(Bing)
    else if key == "丁" then Some(Ding)
    else if key == "戊" then Some(Stem.Wu)
    else if key == "己" then Some(Ji)
    else if key == "庚" then Some(Geng)
    else if key == "辛" then Some(Xin)
    else if key == "壬" then Some(Ren)
    else if key == "癸" then Some(Gui)
    else None
  }

  /** The element recorded for a stem in `stemInfo`: stems come in pairs per
      element along the production cycle. */
  function ElementOf(s: Stem): (e: Element)
    ensures ElementIndex(e) == StemIndex(s) / 2
  {
    match s
    case Jia => Wood
    case Yi => Wood
    case Bing => Fire
    case Ding => Fire
    case Wu => Earth
    case Ji => Earth
    case Geng => Metal
    case Xin => Metal
    case Ren => Water
    case Gui => Water
  }

  /** The yin flag recorded for a stem in `stemInfo`: the odd positions are yin. */
  function IsYin(s: Stem): (yin: bool)
    ensures yin <==> StemIndex(s) % 2 == 1
  {
    match s
    case Jia => false
    case Yi => true
    case Bing => false
    case Ding => true
    case Wu => false
    case Ji => true
    case Geng => false
    case Xin => true
    case Ren => false
    case Gui => true
  }

  /** The `stemInfo` table is regular: stems come in pairs per element along
      the production cycle, yang first. */
  lemma StemInfoByIndex(s: Stem)
    ensures StemIndex(s) == 2 * ElementIndex(ElementOf(s)) + if IsYin(s) then 1 else 0
  {
    match s
    case Jia =>
    case Yi =>
    case Bing =>
    case Ding =>
    case Wu =>
    case Ji =>
    case Geng =>
    case Xin =>
    case Ren =>
    case Gui =>
  }

  /** The one stem with a given element and yin flag. */
  function StemWith(e: Element, yin: bool): (s: Stem)
    ensures ElementOf(s) == e && IsYin(s) == yin
  {
    var i := 2 * ElementIndex(e) + if yin then 1 else 0;
    StemInfoByIndex(StemAt(i));
    StemAtIndex(i);
    StemAt(i)
  }

  /** A stem is determined by its element and its yin flag. */
  lemma StemDeterminedByInfo(a: Stem, b: Stem)
    requires ElementOf(a) == ElementOf(b) && IsYin(a) == IsYin(b)
    ensures a == b
  {
    StemInfoByIndex(a);
    StemInfoByIndex(b);
  }

  lemma StemAtIndex(i: nat)
    requires i < 10
    ensures StemIndex(StemAt(i)) == i
  {
  }

  /** Looking up the character of a stem gives the stem back. */
  lemma StemCharRoundTrip(s: Stem)
    ensures StemOf(StemChar(s)) == Some(s)
  {
    match s
    case Jia =>
    case Yi =>
    case Bing =>
    case Ding =>
    case Wu =>
    case Ji =>
    case Geng =>
    case Xin =>
    case Ren =>
    case Gui =>
  }

  // ---------------------------------------------------------------- branches

  function BranchAt(i: nat): Branch
    requires i < 12
  {
    [Zi, Chou, Yin, Mao, Chen, Si, Branch.Wu, Wei, Shen, You, Xu, Hai][i]
  }

  /** Position of a branch in DIZHI. */
  function BranchIndex(b: Branch): (i: nat)
    ensures i < 12 && BranchAt(i) == b
  {
    match b
    case Zi => 0
    case Chou => 1
    case Yin => 2
    case Mao => 3
    case Chen => 4
    case Si => 5
    case Wu => 6
    case Wei => 7
    case Shen => 8
    case You => 9
    case Xu => 10
    case Hai => 11
  }

  lemma BranchAtIndex(i: nat)
    requires i < 12
    ensures BranchIndex(BranchAt(i)) == i
  {
  }

  /** The character that names a branch. */
  function BranchChar(b: Branch): (c: string)
    ensures |c| == 1
  {
    Dizhi[BranchIndex(b)]
  }

  /** The key lookup `branchHiddenStems[key]`: which branch, if any, the key names. */
  function BranchOf(key: string): (r: Option<Branch>)
    ensures r.Some? ==> BranchChar(r.value) == key
  {
    if key == "子" then Some(Zi)
    else if key == "丑" then Some(Chou)
    else if key == "寅" then Some(Yin)
    else if key == "卯" then Some(Mao)
    else if key == "辰" then Some(Chen)
    else if key == "巳" then Some(Si)
    else if key == "午" then Some(Branch.Wu)
    else if key == "未" then Some(Wei)
    else if key == "申" then Some(Shen)
    else if key == "酉" then Some(You)
    else if key == "戌" then Some(Xu)
    else if key == "亥" then Some(Hai)
    else None
  }

  /** Looking up the character of a branch gives the branch back. */
  lemma BranchCharRoundTrip(b: Branch)
    ensures BranchOf(BranchChar(b)) == Some(b)
  {
    match b
    case Zi =>
    case Chou =>
    case Yin =>
    case Mao =>
    case Chen =>
    case Si =>
    case Wu =>
    case Wei =>
    case Shen =>
    case You =>
    case Xu =>
    case Hai =>
  }

  /** `branchHiddenStems`: the stems hidden in each branch, main stem first.
      Every branch hides one to three distinct stems. The main hidden stem has
      the branch's own polarity, except for 子, 巳, 午 and 亥. */
  function HiddenStems(b: Branch): (hs: seq<Stem>)
    ensures 1 <= |hs| <= 3
    ensures forall i, j :: 0 <= i < j < |hs| ==> hs[i] != hs[j]
    ensures b !in {Zi, Si, Branch.Wu, Hai} ==> StemIndex(hs[0]) % 2 == BranchIndex(b) % 2
  {
    match b
    case Zi => [Gui]
    case Chou => [Ji, Gui, Xin]
    case Yin => [Jia, Bing, Stem.Wu]
    case Mao => [Yi]
    case Chen => [Stem.Wu, Yi, Gui]
    case Si => [Bing, Stem.Wu]
    case Wu => [Ding, Ji]
    case Wei => [Ji, Yi, Ding]
    case Shen => [Geng, Ren, Stem.Wu]
    case You => [Xin]
    case Xu => [Stem.Wu, Xin, Ding]
    case Hai => [Ren, Jia]
  }

  // ------------------------------------------------------------------ lookup

  /** `Array.prototype.indexOf` on a list of strings: the first position of
      `x`, or -1 when `x` does not occur. */
  function IndexOf(xs: seq<string>, x: string): (i: int)
    ensures -1 <= i < |xs|
    ensures i == -1 <==> x !in xs
    ensures 0 <= i ==> xs[i] == x && x !in xs[..i]
  {
    if xs == [] then -1
    else if xs[0] == x then 0
    else
      var j := IndexOf(xs[1..], x);
      if j == -1 then -1
      else
        assert xs[..j + 1] == [xs[0]] + xs[1..][..j];
        j + 1
  }

  /** A JavaScript string index `s[i]` used as a table key: the one-character
      string, or "" where JavaScript gives `undefined` (no table has either key). */
  function CharAt(s: string, i: nat): (c: string)
    ensures i < |s| <==> |c| == 1
    ensures i < |s| ==> c[0] == s[i]
  {
    if i < |s| then [s[i]] else ""
  }

  /** The first character of a pillar built from a stem and a branch. */
  lemma CharAtConcat(a: string, b: string)
    requires |a| == 1
    ensures CharAt(a + b, 0) == a
  {
  }

  /** `TIANGAN.indexOf(key)` finds exactly the keys `stemInfo` knows, at the
      position of the stem they name. */
  lemma {:induction false} IndexOfTiangan(key: string)
    ensures IndexOf(Tiangan, key) == -1 <==> StemOf(key).None?
    ensures StemOf(key).Some? ==> IndexOf(Tiangan, key) == StemIndex(StemOf(key).value)
  {
    var i := IndexOf(Tiangan, key);
    if 0 <= i {
      StemAtIndex(i);
      StemCharRoundTrip(StemAt(i));
    }
    if StemOf(key).Some? {
      var k := StemIndex(StemOf(key).value);
      assert Tiangan[k] == key;
      if i < k {
        TianganDistinct(i, k);
      }
    }
  }

  /** No character names two stems. */
  lemma TianganDistinct(i: nat, j: nat)
    requires i < j < 10
    ensures Tiangan[i] != Tiangan[j]
  {
  }
}
