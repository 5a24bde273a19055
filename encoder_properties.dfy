/**
 * What the encoding of a response means: which answers make it fail and
 * with which error, what the eight scalar entries hold, and how each
 * one-hot group reflects the answer it encodes.
 */
module EncoderProperties {
  import opened Wrappers
  import opened Schema
  import opened Tables
  import opened Derived
  import opened Survey
  import opened Encoder

  /** The ordinal code a known answer looks up to. */
  function Code(r: SurveyResponse, t: Table): (code: int)
    requires Known(r, t)
    ensures Base(t) <= code < Base(t) + |Ranking(t)|
    ensures Ranking(t)[code - Base(t)] == Answer(r, t)
  {
    Lookup(t, Answer(r, t)).value
  }

  /** The encoding fails exactly when the lookups do, with the same error. */
  lemma EncodeFollowsLookups(r: SurveyResponse)
    ensures Encode(r).Success? <==> LookupCodes(r).Success?
    ensures Encode(r).Failure? ==> Encode(r).error == LookupCodes(r).error
  {
  }

  /** The lookups succeed exactly when each of the six answers is a key of its table. */
  lemma LookupsSucceedIffKnown(r: SurveyResponse)
    ensures LookupCodes(r).Success? <==>
      && Known(r, FreqTable) && Known(r, AwarenessTable) && Known(r, ZoneTable)
      && Known(r, IncomeTable) && Known(r, SizeTable) && Known(r, HealthTable)
  {
  }

  /** The encoding succeeds exactly when each of the six answers is a key of its table. */
  lemma EncodeSucceedsIffKnown(r: SurveyResponse)
    ensures Encode(r).Success? <==>
      && Known(r, FreqTable) && Known(r, AwarenessTable) && Known(r, ZoneTable)
      && Known(r, IncomeTable) && Known(r, SizeTable) && Known(r, HealthTable)
  {
    EncodeFollowsLookups(r);
    LookupsSucceedIffKnown(r);
  }

  /** The lookups report the first table, in the encoder's order, whose key is missing. */
  lemma LookupsReportFirstUnknown(r: SurveyResponse, i: int)
    requires 0 <= i < |LookupOrder|
    requires !Known(r, LookupOrder[i])
    requires forall j | 0 <= j < i :: Known(r, LookupOrder[j])
    ensures LookupCodes(r) == Failure(KeyError(LookupOrder[i], Answer(r, LookupOrder[i])))
  {
    if i > 0 { assert Known(r, LookupOrder[0]); }
    if i > 1 { assert Known(r, LookupOrder[1]); }
    if i > 2 { assert Known(r, LookupOrder[2]); }
    if i > 3 { assert Known(r, LookupOrder[3]); }
    if i > 4 { assert Known(r, LookupOrder[4]); }
  }

  /**
   * A failed encoding reports the first table, in the encoder's order, whose
   * key is missing, together with the answer it was subscripted with.
   */
  lemma EncodeReportsFirstUnknown(r: SurveyResponse, i: int)
    requires 0 <= i < |LookupOrder|
    requires !Known(r, LookupOrder[i])
    requires forall j | 0 <= j < i :: Known(r, LookupOrder[j])
    ensures Encode(r) == Failure(KeyError(LookupOrder[i], Answer(r, LookupOrder[i])))
  {
    LookupsReportFirstUnknown(r, i);
    EncodeFollowsLookups(r);
  }

  /** The scalar entries of a vector, as ScalarEntries states them. */
  lemma VectorScalars(r: SurveyResponse, c: Codes)
    requires ValidCodes(c)
    ensures |Vector(r, c)| == |TrainFeatures| == 37
    ensures Vector(r, c)[..ScalarCount] == [
      c.income as real, c.freq as real, c.size as real, c.health as real,
      AgeGroup(r.age) as real, CfAbScore(c.freq, c.awareness), ZasScore(c.zone, c.income) as real,
      Bsi(CfAbScore(c.freq, c.awareness), ZasScore(c.zone, c.income))]
  {
  }

  /** The codes the lookups give are the codes of the six answers. */
  lemma CodesOfAnswers(r: SurveyResponse)
    requires LookupCodes(r).Success?
    ensures Known(r, FreqTable) && Known(r, AwarenessTable) && Known(r, ZoneTable)
    ensures Known(r, IncomeTable) && Known(r, SizeTable) && Known(r, HealthTable)
    ensures LookupCodes(r).value == Codes(Code(r, FreqTable), Code(r, AwarenessTable), Code(r, ZoneTable),
                                          Code(r, IncomeTable), Code(r, SizeTable), Code(r, HealthTable))
  {
  }

  /**
   * The eight scalar entries: four ordinal codes, the age bucket and the
   * three derived scores, in schema order and within their ranges.
   */
  lemma ScalarEntries(r: SurveyResponse, v: seq<real>)
    requires Encode(r) == Success(v)
    ensures |v| == |TrainFeatures| == 37
    ensures Known(r, FreqTable) && Known(r, AwarenessTable) && Known(r, ZoneTable)
    ensures Known(r, IncomeTable) && Known(r, SizeTable) && Known(r, HealthTable)
    ensures v[0] == Code(r, IncomeTable) as real
    ensures v[1] == Code(r, FreqTable) as real
    ensures v[2] == Code(r, SizeTable) as real
    ensures v[3] == Code(r, HealthTable) as real
    ensures v[4] == AgeGroup(r.age) as real
    ensures v[5] == CfAbScore(Code(r, FreqTable), Code(r, AwarenessTable))
    ensures v[6] == (Code(r, ZoneTable) * Code(r, IncomeTable)) as real
    ensures v[7] == (v[5] + v[6]) / 2.0
    ensures 1.0 <= v[4] <= 6.0 && 0.25 <= v[5] <= 0.75 && 1.0 <= v[6] <= 20.0
  {
    EncodedVector(r, v);
    CodesOfAnswers(r);
    var c := LookupCodes(r).value;
    VectorScalars(r, c);
    assert v[..ScalarCount][0] == v[0] && v[..ScalarCount][1] == v[1];
    assert v[..ScalarCount][2] == v[2] && v[..ScalarCount][3] == v[3];
    assert v[..ScalarCount][4] == v[4] && v[..ScalarCount][5] == v[5];
    assert v[..ScalarCount][6] == v[6] && v[..ScalarCount][7] == v[7];
    ZasRange(c.zone, c.income);
  }

  /** The codes of the worked example's answers. */
  lemma ExampleLookups()
    ensures Lookup(FreqTable, "3-4 times") == Success(2) && Lookup(AwarenessTable, "0 to 1") == Success(1)
    ensures Lookup(ZoneTable, "Metro") == Success(4) && Lookup(IncomeTable, "> 35L") == Success(5)
  {
  }

  /**
   * A worked example: "3-4 times" a week with awareness "0 to 1" gives
   * cf_ab_score 2/3 rounded to 0.67; a "Metro" zone with income "> 35L"
   * gives the top zas_score 20; bsi is their mean 10.335.
   */
  lemma MetroTopIncomeExample(r: SurveyResponse)
    requires r.consumeFrequency == "3-4 times" && r.awareness == "0 to 1"
    requires r.zone == "Metro" && r.incomeLevels == "> 35L"
    requires Known(r, SizeTable) && Known(r, HealthTable)
    ensures Encode(r).Success?
    ensures Encode(r).value[5] == 0.67 && Encode(r).value[6] == 20.0 && Encode(r).value[7] == 10.335
  {
    ExampleCodes(r);
    ExampleVector(r, LookupCodes(r).value);
  }

  /** The lookups of the worked example succeed with its codes. */
  lemma ExampleCodes(r: SurveyResponse)
    requires r.consumeFrequency == "3-4 times" && r.awareness == "0 to 1"
    requires r.zone == "Metro" && r.incomeLevels == "> 35L"
    requires Known(r, SizeTable) && Known(r, HealthTable)
    ensures LookupCodes(r).Success?
    ensures LookupCodes(r).value.freq == 2 && LookupCodes(r).value.awareness == 1
    ensures LookupCodes(r).value.zone == 4 && LookupCodes(r).value.income == 5
  {
    ExampleLookups();
  }

  /** The derived entries of a vector with the worked example's codes. */
  lemma ExampleVector(r: SurveyResponse, c: Codes)
    requires ValidCodes(c)
    requires c.freq == 2 && c.awareness == 1 && c.zone == 4 && c.income == 5
    ensures Vector(r, c)[5] == 0.67 && Vector(r, c)[6] == 20.0 && Vector(r, c)[7] == 10.335
  {
    VectorScalars(r, c);
    ScoreExamples();
    var v := Vector(r, c);
    assert v[5] == v[..ScalarCount][5] && v[6] == v[..ScalarCount][6] && v[7] == v[..ScalarCount][7];
  }

  /** A successful encoding is the vector of the codes the lookups gave. */
  lemma EncodedVector(r: SurveyResponse, v: seq<real>)
    requires Encode(r) == Success(v)
    ensures LookupCodes(r).Success? && v == Vector(r, LookupCodes(r).value)
  {
  }

  /** The indicator entries of a vector, as IndicatorEntry states them. */
  lemma VectorIndicatorEntry(r: SurveyResponse, c: Codes, g: Group, k: int)
    requires ValidCodes(c)
    requires 0 <= k < |Domain(g)|
    ensures GroupStart(g) + k < |Vector(r, c)|
    ensures Vector(r, c)[GroupStart(g) + k] == if Domain(g)[k] == Choice(r, g) then 1.0 else 0.0
  {
    GroupOfAt(g, k);
  }

  /**
   * An indicator entry is 1 exactly when its category value is the answer
   * of its group (for gender, "M" for "Male" and "F" for anything else),
   * and 0 otherwise.
   */
  lemma IndicatorEntry(r: SurveyResponse, v: seq<real>, g: Group, k: int)
    requires Encode(r) == Success(v)
    requires 0 <= k < |Domain(g)|
    ensures GroupStart(g) + k < |v|
    ensures v[GroupStart(g) + k] == if Domain(g)[k] == Choice(r, g) then 1.0 else 0.0
  {
    EncodedVector(r, v);
    VectorIndicatorEntry(r, LookupCodes(r).value, g, k);
  }

  /** The sum of a sequence of reals. */
  function Sum(s: seq<real>): real {
    if |s| == 0 then 0.0 else s[0] + Sum(s[1..])
  }

  /** The entries of a sequence, read against distinct labels, are 1 where the label is x and 0 elsewhere. */
  predicate IndicatesIn(s: seq<real>, labels: seq<string>, x: string) {
    && |s| == |labels|
    && forall k | 0 <= k < |labels| :: s[k] == if labels[k] == x then 1.0 else 0.0
  }

  /** An indicator sequence over distinct labels sums to 1 when x is a label and to 0 otherwise. */
  lemma {:induction false} IndicatorSum(s: seq<real>, labels: seq<string>, x: string)
    requires IndicatesIn(s, labels, x)
    requires forall k, k' | 0 <= k < k' < |labels| :: labels[k] != labels[k']
    ensures Sum(s) == if x in labels then 1.0 else 0.0
    decreases |labels|
  {
    if |labels| > 0 {
      var rest := labels[1..];
      assert IndicatesIn(s[1..], rest, x);
      IndicatorSum(s[1..], rest, x);
      assert labels == [labels[0]] + rest;
      if labels[0] == x {
        forall j | 0 <= j < |rest|
          ensures rest[j] != x
        {
          assert rest[j] == labels[j + 1];
        }
      }
    }
  }

  /** The columns of one group in a vector indicate the group's answer among its category values. */
  lemma GroupIndicates(r: SurveyResponse, c: Codes, g: Group)
    requires ValidCodes(c)
    ensures GroupStart(g) <= GroupEnd(g) <= |Vector(r, c)|
    ensures IndicatesIn(Vector(r, c)[GroupStart(g)..GroupEnd(g)], Domain(g), Choice(r, g))
  {
    GroupOfAt(g, 0);
    GroupOfAt(g, |Domain(g)| - 1);
    var s := Vector(r, c)[GroupStart(g)..GroupEnd(g)];
    forall k | 0 <= k < |Domain(g)|
      ensures s[k] == if Domain(g)[k] == Choice(r, g) then 1.0 else 0.0
    {
      assert s[k] == Vector(r, c)[GroupStart(g) + k];
      VectorIndicatorEntry(r, c, g, k);
    }
  }

  /** The columns of one group in a vector, as GroupSum states them. */
  lemma VectorGroupSum(r: SurveyResponse, c: Codes, g: Group)
    requires ValidCodes(c)
    ensures GroupStart(g) <= GroupEnd(g) <= |Vector(r, c)|
    ensures Sum(Vector(r, c)[GroupStart(g)..GroupEnd(g)]) == if Choice(r, g) in Domain(g) then 1.0 else 0.0
  {
    GroupIndicates(r, c, g);
    DomainDistinct(g);
    IndicatorSum(Vector(r, c)[GroupStart(g)..GroupEnd(g)], Domain(g), Choice(r, g));
  }

  /** Every indicator entry is 0 or 1, and no group has two entries at 1. */
  lemma GroupMarksAtMostOne(r: SurveyResponse, v: seq<real>, g: Group, k: int, k': int)
    requires Encode(r) == Success(v)
    requires 0 <= k < |Domain(g)| && 0 <= k' < |Domain(g)|
    ensures GroupStart(g) + k < |v| && GroupStart(g) + k' < |v|
    ensures v[GroupStart(g) + k] == 0.0 || v[GroupStart(g) + k] == 1.0
    ensures v[GroupStart(g) + k] == 1.0 && v[GroupStart(g) + k'] == 1.0 ==> k == k'
  {
    IndicatorEntry(r, v, g, k);
    IndicatorEntry(r, v, g, k');
    DomainDistinct(g);
  }

  /** A one-hot group sums to 1 when its answer is one of its category values, and to 0 otherwise. */
  lemma GroupSum(r: SurveyResponse, v: seq<real>, g: Group)
    requires Encode(r) == Success(v)
    ensures GroupStart(g) <= GroupEnd(g) <= |v|
    ensures Sum(v[GroupStart(g)..GroupEnd(g)]) == if Choice(r, g) in Domain(g) then 1.0 else 0.0
  {
    EncodedVector(r, v);
    VectorGroupSum(r, LookupCodes(r).value, g);
  }

  /** The columns of one group in a vector, as UnknownAnswerAllZero states them. */
  lemma VectorUnknownAllZero(r: SurveyResponse, c: Codes, g: Group)
    requires ValidCodes(c)
    requires Choice(r, g) !in Domain(g)
    ensures GroupEnd(g) <= |Vector(r, c)|
    ensures forall i | GroupStart(g) <= i < GroupEnd(g) :: Vector(r, c)[i] == 0.0
  {
    GroupOfAt(g, 0);
    GroupOfAt(g, |Domain(g)| - 1);
    forall i | GroupStart(g) <= i < GroupEnd(g)
      ensures Vector(r, c)[i] == 0.0
    {
      var k := i - GroupStart(g);
      assert Domain(g)[k] != Choice(r, g);
      VectorIndicatorEntry(r, c, g, k);
    }
  }

  /** An answer outside its group's category values leaves every column of the group at 0. */
  lemma UnknownAnswerAllZero(r: SurveyResponse, v: seq<real>, g: Group)
    requires Encode(r) == Success(v)
    requires Choice(r, g) !in Domain(g)
    ensures GroupEnd(g) <= |v|
    ensures forall i | GroupStart(g) <= i < GroupEnd(g) :: v[i] == 0.0
  {
    EncodedVector(r, v);
    VectorUnknownAllZero(r, LookupCodes(r).value, g);
  }

  /** A zone the zone table knows is a zone category of the schema. */
  lemma KnownZoneIsCategory(r: SurveyResponse)
    requires Known(r, ZoneTable)
    ensures Choice(r, Zone) in Domain(Zone)
  {
    var x := r.zone;
    assert x == "Rural" || x == "Semi-Urban" || x == "Urban" || x == "Metro";
  }

  /** An awareness answer the awareness table knows is an awareness category of the schema. */
  lemma KnownAwarenessIsCategory(r: SurveyResponse)
    requires Known(r, AwarenessTable)
    ensures Choice(r, Awareness) in Domain(Awareness)
  {
    var x := r.awareness;
    assert x == "0 to 1" || x == "2 to 4" || x == "above 4";
  }

  /** Gender always marks exactly one of its two columns. */
  lemma GenderMarksOne(r: SurveyResponse, v: seq<real>)
    requires Encode(r) == Success(v)
    ensures GroupEnd(Gender) <= |v|
    ensures Sum(v[GroupStart(Gender)..GroupEnd(Gender)]) == 1.0
  {
    GroupSum(r, v, Gender);
    assert Choice(r, Gender) in Domain(Gender);
  }

  /** Zone marks exactly one column, since a successful encoding found the zone in its lookup table. */
  lemma ZoneMarksOne(r: SurveyResponse, v: seq<real>)
    requires Encode(r) == Success(v)
    ensures GroupEnd(Zone) <= |v|
    ensures Sum(v[GroupStart(Zone)..GroupEnd(Zone)]) == 1.0
  {
    EncodeSucceedsIffKnown(r);
    KnownZoneIsCategory(r);
    GroupSum(r, v, Zone);
  }

  /** Awareness marks exactly one column, since a successful encoding found it in its lookup table. */
  lemma AwarenessMarksOne(r: SurveyResponse, v: seq<real>)
    requires Encode(r) == Success(v)
    ensures GroupEnd(Awareness) <= |v|
    ensures Sum(v[GroupStart(Awareness)..GroupEnd(Awareness)]) == 1.0
  {
    EncodeSucceedsIffKnown(r);
    KnownAwarenessIsCategory(r);
    GroupSum(r, v, Awareness);
  }

  /** The gender columns: gender_M is 1 exactly for "Male", and gender_F is its complement. */
  lemma GenderColumns(r: SurveyResponse, v: seq<real>)
    requires Encode(r) == Success(v)
    ensures GroupStart(Gender) + 1 < |v|
    ensures v[GroupStart(Gender) + 1] == if r.gender == "Male" then 1.0 else 0.0
    ensures v[GroupStart(Gender)] == 1.0 - v[GroupStart(Gender) + 1]
  {
    IndicatorEntry(r, v, Gender, 0);
    IndicatorEntry(r, v, Gender, 1);
  }
}
