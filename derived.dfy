/**
 * Age bucketing and the three derived scores of the encoder. The score
 * cf_ab_score is a ratio rounded to two decimals; it is represented exactly,
 * as a whole number of hundredths.
 */
module Derived {

  /** The closed age ranges of buckets 1 to 5; any other age falls in bucket 6. */
  const AgeBrackets: seq<(int, int)> := [(18, 25), (26, 35), (36, 45), (46, 55), (56, 70)]

  /**
   * The age bucket: the number of the bracket that contains the age, or 6
   * when no bracket does.
   */
  function AgeGroup(age: int): (g: int)
    ensures 1 <= g <= 6
    ensures g <= 5 ==> AgeBrackets[g - 1].0 <= age <= AgeBrackets[g - 1].1
    ensures g == 6 <==> forall b | b in AgeBrackets :: !(b.0 <= age <= b.1)
  {
    if 18 <= age <= 25 then 1
    else if 26 <= age <= 35 then 2
    else if 36 <= age <= 45 then 3
    else if 46 <= age <= 55 then 4
    else if 56 <= age <= 70 then 5
    else 6
  }

  /** Over the declared age domain the bucket never decreases as age grows. */
  lemma AgeGroupMonotone(a: int, b: int)
    requires 18 <= a <= b <= 70
    ensures AgeGroup(a) <= AgeGroup(b) <= 5
  {
  }

  lemma AgeGroupBoundaries()
    ensures AgeGroup(18) == 1 && AgeGroup(25) == 1 && AgeGroup(26) == 2
    ensures AgeGroup(70) == 5 && AgeGroup(17) == 6 && AgeGroup(71) == 6
  {
  }

  function Abs(x: int): nat {
    if x < 0 then -x else x
  }

  /**
   * cf_ab_score in hundredths: fs / (as + fs) rounded to two decimals. The
   * result is strictly nearer to the exact ratio than half a hundredth, so
   * no tie arises and every rounding rule gives the same value.
   */
  function CfAbHundredths(fs: int, as_: int): (h: int)
    requires 1 <= fs <= 3 && 1 <= as_ <= 3
    ensures 2 * Abs(100 * fs - h * (as_ + fs)) < as_ + fs
    ensures 25 <= h <= 75
  {
    (200 * fs + (as_ + fs)) / (2 * (as_ + fs))
  }

  /** Any whole number of hundredths within half a hundredth of the ratio is the rounded value. */
  lemma RoundingUnambiguous(fs: int, as_: int, h: int)
    requires 1 <= fs <= 3 && 1 <= as_ <= 3
    requires 2 * Abs(100 * fs - h * (as_ + fs)) <= as_ + fs
    ensures h == CfAbHundredths(fs, as_)
  {
  }

  /** cf_ab_score as an exact decimal. */
  function CfAbScore(fs: int, as_: int): (r: real)
    requires 1 <= fs <= 3 && 1 <= as_ <= 3
    ensures 0.25 <= r <= 0.75
  {
    CfAbHundredths(fs, as_) as real / 100.0
  }

  /**
   * zas_score: the zone code times the income code. With zone codes in 1..4
   * and income codes in 1..5 it lies in 1..20.
   */
  function ZasScore(zoneCode: int, incomeCode: int): (z: int)
    ensures 1 <= zoneCode <= 4 && 1 <= incomeCode <= 5 ==> 1 <= z <= 20
  {
    zoneCode * incomeCode
  }

  /** The top interaction 20 is reached only by the highest zone code with the highest income code. */
  lemma ZasRange(zoneCode: int, incomeCode: int)
    requires 1 <= zoneCode <= 4 && 1 <= incomeCode <= 5
    ensures ZasScore(zoneCode, incomeCode) == 20 <==> zoneCode == 4 && incomeCode == 5
  {
  }

  /** bsi: the mean of cf_ab_score and zas_score, equally far from both and between them. */
  function Bsi(cfAb: real, zas: int): (b: real)
    ensures b - cfAb == zas as real - b
    ensures cfAb <= zas as real ==> cfAb <= b <= zas as real
    ensures zas as real <= cfAb ==> zas as real <= b <= cfAb
  {
    (cfAb + zas as real) / 2.0
  }

  lemma ScoreExamples()
    ensures CfAbHundredths(2, 1) == 67 && CfAbScore(2, 1) == 0.67
    ensures ZasScore(4, 5) == 20
    ensures Bsi(CfAbScore(2, 1), ZasScore(4, 5)) == 10.335
  {
  }
}
