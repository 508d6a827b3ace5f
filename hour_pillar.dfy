/** The hour pillar of `calculateBazi`: the double-hour slot (shichen) of the
    birth hour, and the hour stem derived from the day stem's index, together
    with the sexagenary cycle they are drawn from. */
module HourPillar {
  import opened Tables

  /** `Math.floor((hour + 1) / 2) % 12`. For a non-negative hour, JavaScript's
      floor and remainder agree with Dafny's Euclidean `/` and `%`. Slot 0 (子)
      covers 23:00-00:59, and slot k covers the hours 2k-1 and 2k. */
  function HourSlot(hour: nat): (slot: nat)
    ensures slot < 12
    ensures hour % 24 == 0 || hour % 24 == 23 <==> slot == 0
    ensures 1 <= hour % 24 <= 22 ==> 2 * slot - 1 <= hour % 24 <= 2 * slot
  {
    ((hour + 1) / 2) % 12
  }

  /** `((dayStemIndex % 5) * 2 + shichen) % 10`: a stem index of the same
      parity as the slot. */
  function HourStemIndex(dayStemIndex: nat, slot: nat): (i: nat)
    ensures i < 10
    ensures i % 2 == slot % 2
  {
    ((dayStemIndex % 5) * 2 + slot) % 10
  }

  /** The hour stem depends on the day stem only through its group
      `dayStemIndex % 5` (甲/己, 乙/庚, 丙/辛, 丁/壬, 戊/癸). */
  lemma HourStemByGroup(d1: nat, d2: nat, slot: nat)
    requires d1 % 5 == d2 % 5
    ensures HourStemIndex(d1, slot) == HourStemIndex(d2, slot)
  {
  }

  // ------------------------------------------------------ sexagenary cycle

  /** Position k of the sixty-pair cycle. */
  function CyclePillar(k: nat): (Stem, Branch)
    requires k < 60
  {
    (StemAt(k % 10), BranchAt(k % 12))
  }

  /** A stem and a branch that occur together in the sixty-pair cycle. */
  ghost predicate IsSexagenary(s: Stem, b: Branch)
  {
    exists k :: 0 <= k < 60 && CyclePillar(k) == (s, b)
  }

  /** Remainders by the two cycle lengths, stated for one quotient at a time. */
  lemma ModTen(x: int, r: int, t: int)
    requires 0 <= r < 10 && x == r + 10 * t
    ensures x % 10 == r
  {
  }

  lemma ModTwelve(x: int, r: int, t: int)
    requires 0 <= r < 12 && x == r + 12 * t
    ensures x % 12 == r
  {
  }

  /** A cycle position has the same parity as its stem index and its branch index. */
  lemma CycleParity(k: nat)
    ensures (k % 10) % 2 == k % 2 && (k % 12) % 2 == k % 2
  {
    var a, b := k / 10, k / 12;
    assert k == k % 10 + 10 * a;
    assert k == k % 12 + 12 * b;
    EvenShift(k, k % 10, 5 * a);
    EvenShift(k, k % 12, 6 * b);
  }

  lemma EvenShift(x: int, y: int, t: int)
    requires x == y + 2 * t
    ensures x % 2 == y % 2
  {
  }

  /** A cycle position for a stem index and a branch index of equal parity:
      the branch index plus twelve times half their difference, modulo 5. */
  lemma ParityWitness(si: int, bi: int) returns (k: nat)
    requires 0 <= si < 10 && 0 <= bi < 12 && si % 2 == bi % 2
    ensures k < 60 && k % 10 == si && k % 12 == bi
  {
    var j := (si - bi) / 2;
    assert si == bi + 2 * j;
    var q, m := j / 5, j % 5;
    assert j == 5 * q + m;
    k := bi + 12 * m;
    ModTen(k, si, m - q);
    ModTwelve(k, bi, m);
  }

  lemma GroupShift(g: nat, slot: nat)
    requires g < 5 && slot < 12
    ensures (12 * g + slot) % 12 == slot
    ensures (12 * g + slot) % 10 == (g * 2 + slot) % 10
  {
    var k := 12 * g + slot;
    ModTwelve(k, slot, g);
    if 2 * g + slot < 10 {
      ModTen(k, 2 * g + slot, g);
    } else {
      ModTen(k, 2 * g + slot - 10, g + 1);
    }
  }

  /** Exactly the pairs of equal parity occur in the cycle: 60 of the 120. */
  lemma SexagenaryParity(s: Stem, b: Branch)
    ensures IsSexagenary(s, b) <==> StemIndex(s) % 2 == BranchIndex(b) % 2
  {
    if IsSexagenary(s, b) {
      var k :| 0 <= k < 60 && CyclePillar(k) == (s, b);
      StemAtIndex(k % 10);
      BranchAtIndex(k % 12);
      CycleParity(k);
    }
    if StemIndex(s) % 2 == BranchIndex(b) % 2 {
      var k := ParityWitness(StemIndex(s), BranchIndex(b));
      assert CyclePillar(k) == (s, b);
    }
  }

  /** The twelve hour pillars of a day start at cycle position 12 * (day stem
      group): group 0 (甲, 己) starts at 甲子, group 1 (乙, 庚) at 丙子, and so on. */
  lemma HourPillarPosition(dayStemIndex: nat, slot: nat)
    requires dayStemIndex < 10 && slot < 12
    ensures CyclePillar(12 * (dayStemIndex % 5) + slot)
         == (StemAt(HourStemIndex(dayStemIndex, slot)), BranchAt(slot))
  {
    GroupShift(dayStemIndex % 5, slot);
  }

  /** The hour pillar for a day stem and a birth hour. */
  function HourPillarOf(dayStem: Stem, hour: nat): (p: (Stem, Branch))
    ensures IsSexagenary(p.0, p.1)
    ensures p.1 == BranchAt(HourSlot(hour))
  {
    var slot := HourSlot(hour);
    var d := StemIndex(dayStem);
    HourPillarPosition(d, slot);
    (StemAt(HourStemIndex(d, slot)), BranchAt(slot))
  }
}
