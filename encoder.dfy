/**
 * The feature encoder: a survey response becomes the 37-entry numeric vector
 * in training-schema order, or the first failed table lookup.
 */
module Encoder {
  import opened Wrappers
  import opened Schema
  import opened Tables
  import opened Derived
  import opened Survey
  import opened OneHot

  /** The six ordinal codes of a response. */
  datatype Codes = Codes(freq: int, awareness: int, zone: int, income: int, size: int, health: int)

  /** The ranges the lookup tables give the codes. */
  predicate ValidCodes(c: Codes) {
    && 1 <= c.freq <= 3 && 1 <= c.awareness <= 3 && 1 <= c.zone <= 4
    && 1 <= c.income <= 5 && 0 <= c.size <= 2 && 0 <= c.health <= 2
  }

  /** The answer a table is subscripted with. */
  function Answer(r: SurveyResponse, t: Table): string {
    match t
    case FreqTable => r.consumeFrequency
    case AwarenessTable => r.awareness
    case ZoneTable => r.zone
    case IncomeTable => r.incomeLevels
    case SizeTable => r.consumptionSize
    case HealthTable => r.healthConcerns
  }

  /** The order in which the encoder subscripts the tables. */
  const LookupOrder: seq<Table> := [FreqTable, AwarenessTable, ZoneTable, IncomeTable, SizeTable, HealthTable]

  /** Whether a response's answer for a table is one of its keys. */
  predicate Known(r: SurveyResponse, t: Table) {
    Answer(r, t) in Ranking(t)
  }

  /** The codes of a response, looked up in the encoder's order; the first missing key is the error. */
  function LookupCodes(r: SurveyResponse): (res: Result<Codes, LookupError>)
    ensures res.Success? ==> ValidCodes(res.value)
  {
    var fs :- Lookup(FreqTable, r.consumeFrequency);
    var as_ :- Lookup(AwarenessTable, r.awareness);
    var zoneCode :- Lookup(ZoneTable, r.zone);
    var incomeCode :- Lookup(IncomeTable, r.incomeLevels);
    var size :- Lookup(SizeTable, r.consumptionSize);
    var health :- Lookup(HealthTable, r.healthConcerns);
    Success(Codes(fs, as_, zoneCode, incomeCode, size, health))
  }

  /**
   * The value of the scalar column at position i for a response whose
   * lookups gave codes c: the income, frequency, size and health codes, the
   * age bucket, and the three derived scores.
   */
  function ScalarValue(r: SurveyResponse, c: Codes, i: int): real
    requires ValidCodes(c) && 0 <= i < ScalarCount
  {
    if i == 0 then c.income as real
    else if i == 1 then c.freq as real
    else if i == 2 then c.size as real
    else if i == 3 then c.health as real
    else if i == 4 then AgeGroup(r.age) as real
    else if i == 5 then CfAbScore(c.freq, c.awareness)
    else if i == 6 then ZasScore(c.zone, c.income) as real
    else Bsi(CfAbScore(c.freq, c.awareness), ZasScore(c.zone, c.income))
  }

  /**
   * The value of the column at position i: a scalar value for the scalar
   * columns, and for an indicator column 1 or 0 as its category value is or
   * is not the response's answer for its group.
   */
  function ColumnValue(r: SurveyResponse, c: Codes, i: int): real
    requires ValidCodes(c) && 0 <= i < |TrainFeatures|
  {
    if i < ScalarCount then ScalarValue(r, c, i)
    else if CategoryAt(i) == Choice(r, GroupOf(i)) then 1.0
    else 0.0
  }

  /** The vector of a response whose lookups gave codes c, column by column in schema order. */
  function Vector(r: SurveyResponse, c: Codes): (v: seq<real>)
    requires ValidCodes(c)
    ensures |v| == |TrainFeatures|
  {
    seq(|TrainFeatures|, i requires 0 <= i < |TrainFeatures| => ColumnValue(r, c, i))
  }

  /** The encoding of a response: the first failed lookup, or the vector of its codes. */
  function Encode(r: SurveyResponse): (res: Result<seq<real>, LookupError>)
    ensures res.Success? ==> |res.value| == |TrainFeatures|
  {
    var c :- LookupCodes(r);
    Success(Vector(r, c))
  }

  /**
   * Encodes a response as the source does: subscript the tables, derive the
   * scores and the age bucket, build the scalar dictionary, build the one-hot
   * dictionary, merge the two and read the merged dictionary in schema order.
   */
  method PreprocessInput(r: SurveyResponse) returns (res: Result<seq<real>, LookupError>)
    ensures res == Encode(r)
  {
    var fs :- Lookup(FreqTable, r.consumeFrequency);
    var as_ :- Lookup(AwarenessTable, r.awareness);
    var cfAbScore := CfAbScore(fs, as_);
    var zoneCode :- Lookup(ZoneTable, r.zone);
    var incomeCode :- Lookup(IncomeTable, r.incomeLevels);
    var zasScore := ZasScore(zoneCode, incomeCode);
    var bsi := Bsi(cfAbScore, zasScore);
    var ageGroup := AgeGroup(r.age);
    var size :- Lookup(SizeTable, r.consumptionSize);
    var health :- Lookup(HealthTable, r.healthConcerns);
    ghost var codes := Codes(fs, as_, zoneCode, incomeCode, size, health);
    assert LookupCodes(r) == Success(codes);

    var features := ScalarDictionary(incomeCode, fs, size, health, ageGroup, cfAbScore, zasScore, bsi);
    var vector := MergeAndOrder(r, codes, features);
    res := Success(vector);
  }

  /**
   * The second half of the encoder: builds the one-hot dictionary, merges it
   * into the scalar dictionary and reads the merged dictionary in schema order.
   */
  method MergeAndOrder(r: SurveyResponse, ghost codes: Codes, features: map<string, real>)
    returns (vector: seq<real>)
    requires LookupCodes(r) == Success(codes)
    requires features == ScalarFeatures(r, codes)
    ensures Encode(r) == Success(vector)
  {
    var oneHot := BuildOneHot(r);
    var merged := features + map c | c in oneHot :: oneHot[c] as real;
    ScalarColumnsMerged(r, codes, oneHot, merged);
    IndicatorColumnsMerged(r, codes, features, oneHot, merged);
    MergedInSchemaOrder(r, codes, merged);
    vector := seq(|TrainFeatures|, i requires 0 <= i < |TrainFeatures| => merged[TrainFeatures[i]]);
  }

  /** The scalar dictionary: its keys are exactly the schema's scalar column names. */
  function ScalarDictionary(income: int, freq: int, size: int, health: int, ageGroup: int,
                            cfAbScore: real, zasScore: int, bsi: real): (m: map<string, real>)
    ensures forall i | 0 <= i < ScalarCount :: ScalarColumns[i] in m
    ensures forall c | c in m :: c in ScalarColumns
  {
    map[
      "income_levels" := income as real,
      "consume_frequency(weekly)" := freq as real,
      "preferable_consumption_size" := size as real,
      "health_concerns" := health as real,
      "age_group" := ageGroup as real,
      "cf_ab_score" := cfAbScore,
      "zas_score" := zasScore as real,
      "bsi" := bsi]
  }

  /** The scalar dictionary of a response whose lookups gave codes. */
  function ScalarFeatures(r: SurveyResponse, codes: Codes): map<string, real>
    requires ValidCodes(codes)
  {
    var cfAb := CfAbScore(codes.freq, codes.awareness);
    var zas := ZasScore(codes.zone, codes.income);
    ScalarDictionary(codes.income, codes.freq, codes.size, codes.health, AgeGroup(r.age), cfAb, zas, Bsi(cfAb, zas))
  }

  /** Reading the merged dictionary in schema order gives the encoding. */
  lemma MergedInSchemaOrder(r: SurveyResponse, codes: Codes, merged: map<string, real>)
    requires LookupCodes(r) == Success(codes)
    requires forall i | 0 <= i < |TrainFeatures| ::
      TrainFeatures[i] in merged && merged[TrainFeatures[i]] == ColumnValue(r, codes, i)
    ensures Encode(r) == Success(seq(|TrainFeatures|, i requires 0 <= i < |TrainFeatures| => merged[TrainFeatures[i]]))
  {
    var read := seq(|TrainFeatures|, i requires 0 <= i < |TrainFeatures| => merged[TrainFeatures[i]]);
    assert read == Vector(r, codes);
  }

  /** Each scalar column of the merged dictionary holds its scalar value. */
  lemma ScalarColumnsMerged(r: SurveyResponse, codes: Codes, oneHot: map<string, int>, merged: map<string, real>)
    requires ValidCodes(codes)
    requires oneHot.Keys == IndicatorKeys()
    requires merged == ScalarFeatures(r, codes) + map c | c in oneHot :: oneHot[c] as real
    ensures forall i | 0 <= i < ScalarCount ::
      TrainFeatures[i] in merged && merged[TrainFeatures[i]] == ColumnValue(r, codes, i)
  {
    forall i | 0 <= i < ScalarCount
      ensures TrainFeatures[i] in merged && merged[TrainFeatures[i]] == ColumnValue(r, codes, i)
    {
      ScalarAt(i);
      ScalarMerged(r, codes, oneHot, merged, i);
    }
  }

  /** The scalar column at position i of the merged dictionary, as ScalarColumnsMerged states it. */
  lemma ScalarMerged(r: SurveyResponse, codes: Codes, oneHot: map<string, int>, merged: map<string, real>, i: int)
    requires ValidCodes(codes)
    requires oneHot.Keys == IndicatorKeys()
    requires merged == ScalarFeatures(r, codes) + map c | c in oneHot :: oneHot[c] as real
    requires 0 <= i < ScalarCount
    ensures ScalarColumns[i] in merged && merged[ScalarColumns[i]] == ScalarValue(r, codes, i)
  {
    var col := ScalarColumns[i];
    assert col !in oneHot;
    if i == 0 {
      assert col == "income_levels";
    } else if i == 1 {
      assert col == "consume_frequency(weekly)";
    } else if i == 2 {
      assert col == "preferable_consumption_size";
    } else if i == 3 {
      assert col == "health_concerns";
    } else if i == 4 {
      assert col == "age_group";
    } else if i == 5 {
      assert col == "cf_ab_score";
    } else if i == 6 {
      assert col == "zas_score";
    } else {
      assert col == "bsi";
    }
  }

  /** Each indicator column of the merged dictionary holds its one-hot value. */
  lemma IndicatorColumnsMerged(r: SurveyResponse, codes: Codes, features: map<string, real>,
                                oneHot: map<string, int>, merged: map<string, real>)
    requires ValidCodes(codes)
    requires oneHot.Keys == IndicatorKeys()
    requires forall c | c in oneHot :: oneHot[c] == if IsSelected(r, c) then 1 else 0
    requires merged == features + map c | c in oneHot :: oneHot[c] as real
    ensures forall i | ScalarCount <= i < |TrainFeatures| ::
      TrainFeatures[i] in merged && merged[TrainFeatures[i]] == ColumnValue(r, codes, i)
  {
    forall i | ScalarCount <= i < |TrainFeatures|
      ensures TrainFeatures[i] in merged && merged[TrainFeatures[i]] == ColumnValue(r, codes, i)
    {
      IndicatorMerged(r, codes, features, oneHot, merged, i);
    }
  }

  /**
   * The indicator column at position i of the merged dictionary, as
   * IndicatorColumnsMerged states it: its name is selected exactly when its
   * category value is the answer of its group.
   */
  lemma IndicatorMerged(r: SurveyResponse, codes: Codes, features: map<string, real>,
                         oneHot: map<string, int>, merged: map<string, real>, i: int)
    requires ValidCodes(codes)
    requires oneHot.Keys == IndicatorKeys()
    requires forall c | c in oneHot :: oneHot[c] == if IsSelected(r, c) then 1 else 0
    requires merged == features + map c | c in oneHot :: oneHot[c] as real
    requires ScalarCount <= i < |TrainFeatures|
    ensures TrainFeatures[i] in merged && merged[TrainFeatures[i]] == ColumnValue(r, codes, i)
  {
    var g := GroupOf(i);
    var k := i - GroupStart(g);
    ColumnAt(g, k);
    GroupOfAt(g, k);
    SelectedInGroup(r, g, k);
    IndicatorNotScalar(i);
    var col := TrainFeatures[i];
    assert col in oneHot;
    assert merged[col] == oneHot[col] as real;
    assert IsSelected(r, col) <==> CategoryAt(i) == Choice(r, GroupOf(i));
  }
}
