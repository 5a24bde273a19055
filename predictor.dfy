/**
 * The prediction step: encode a response, hand the vector to the trained
 * classifier and name the class it returns as a price range.
 */
module Predictor {
  import opened Wrappers
  import opened Tables
  import opened Survey
  import opened Encoder

  /** The price range each class stands for, indexed by class. */
  const PriceRanges: seq<string> := [
    "\U{20B9}50 - \U{20B9}100",
    "\U{20B9}100 - \U{20B9}150",
    "\U{20B9}150 - \U{20B9}200",
    "\U{20B9}200 - \U{20B9}250"
  ]

  /** Why a prediction has no label: an encoding lookup failed, or the class has no entry. */
  datatype PredictError = EncodingFailed(cause: LookupError) | UnknownClass(classId: int)

  /** The label dictionary: classes 0 to 3, each mapped to its price range. */
  function LabelMap(): (m: map<int, string>)
    ensures forall id :: id in m <==> 0 <= id < |PriceRanges|
    ensures forall id | id in m :: m[id] == PriceRanges[id]
  {
    map[0 := PriceRanges[0], 1 := PriceRanges[1], 2 := PriceRanges[2], 3 := PriceRanges[3]]
  }

  /** The price range of a class, or an error for a class outside the dictionary. */
  function Label(classId: int): (r: Result<string, PredictError>)
    ensures r.Success? <==> 0 <= classId < |PriceRanges|
    ensures r.Success? ==> r.value == PriceRanges[classId]
    ensures r.Failure? ==> r.error == UnknownClass(classId)
  {
    if classId in LabelMap() then Success(LabelMap()[classId]) else Failure(UnknownClass(classId))
  }

  /** A digit as a character. */
  function DigitChar(d: nat): char
    requires d < 10
  {
    (48 + d) as char
  }

  /** The decimal text of a natural number. */
  function DecimalText(n: nat): string
    decreases n
  {
    if n < 10 then [DigitChar(n)] else DecimalText(n / 10) + [DigitChar(n % 10)]
  }

  /** A price range written as the labels write it: rupee sign, lower bound, dash, rupee sign, upper bound. */
  function RangeText(lo: nat, hi: nat): string {
    "\U{20B9}" + DecimalText(lo) + " - \U{20B9}" + DecimalText(hi)
  }

  /**
   * The classes name consecutive price bands fifty rupees wide, starting
   * at fifty: class k covers 50(k+1) to 50(k+2).
   */
  lemma PriceBands(k: int)
    requires 0 <= k < |PriceRanges|
    ensures PriceRanges[k] == RangeText(50 * (k + 1), 50 * (k + 2))
  {
    DecimalOfMultiples();
    if k == 0 {
      assert RangeText(50, 100) == PriceRanges[0];
    } else if k == 1 {
      assert RangeText(100, 150) == PriceRanges[1];
    } else if k == 2 {
      assert RangeText(150, 200) == PriceRanges[2];
    } else {
      assert RangeText(200, 250) == PriceRanges[3];
    }
  }

  /** The decimal texts of the band bounds. */
  lemma DecimalOfMultiples()
    ensures DecimalText(50) == "50" && DecimalText(100) == "100" && DecimalText(150) == "150"
    ensures DecimalText(200) == "200" && DecimalText(250) == "250"
  {
    assert DecimalText(5) == "5" && DecimalText(1) == "1" && DecimalText(2) == "2";
    assert DecimalText(10) == "10" && DecimalText(15) == "15";
    assert DecimalText(20) == "20" && DecimalText(25) == "25";
  }

  /** Distinct classes have distinct labels. */
  lemma LabelsDistinct(a: int, b: int)
    requires Label(a).Success? && Label(b).Success?
    requires Label(a).value == Label(b).value
    ensures a == b
  {
    assert PriceRanges[a][1] == PriceRanges[b][1];
    assert PriceRanges[a][2] == PriceRanges[b][2];
  }

  /**
   * Predicts the price range of a response: a failed lookup while encoding
   * is reported as such; otherwise the classifier's class for the encoded
   * vector is named through the label dictionary.
   */
  method Predict(r: SurveyResponse, classify: seq<real> -> int) returns (res: Result<string, PredictError>)
    ensures Encode(r).Failure? ==> res == Failure(EncodingFailed(Encode(r).error))
    ensures Encode(r).Success? ==> res == Label(classify(Encode(r).value))
  {
    var encoded := PreprocessInput(r);
    if encoded.Failure? {
      return Failure(EncodingFailed(encoded.error));
    }
    var prediction := classify(encoded.value);
    res := Label(prediction);
  }
}
