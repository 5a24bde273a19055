# Beverage price prediction: the feature encoder

This project models the prediction helper of the beverage price-range
predictor. A survey response is turned into the 37-column numeric vector
that the trained classifier expects. The classifier's class is then named
as a price range.

For the encoder the model covers:

- **Ordinal lookups.** Six answers are subscripted in fixed dictionaries: weekly consumption frequency, awareness of other brands, zone, income level, consumption size and health concern. An answer that is not a key fails with a key error on that answer; the model's error also records which table was searched. The first failing lookup in evaluation order is the one reported.
- **Age bucketing** into groups 1 to 6.
- **The three derived scores:**
  - `cf_ab_score` is `fs / (as + fs)` rounded to two decimals.
  - `zas_score` is the zone code times the income code.
  - `bsi` is the mean of the two.
- **The scalar dictionary** of the eight label-encoded and derived columns.
- **The one-hot dictionary.** It starts with every indicator column at 0 and is updated in place:
  - gender sets `gender_M` for "Male" and `gender_F` otherwise;
  - each of the nine other groups sets the column named by its prefix and the answer, when that column exists.
- **The merge** of the two dictionaries, and the read-out in training-schema order.

For `predict` the model covers the label dictionary from class 0..3 to price range, with the classifier as a function parameter.

Modules:

- `Wrappers`: the `Result` type.
- `Schema`: the column layout.
- `Tables`: the lookup dictionaries.
- `Derived`: the age bucket and the scores.
- `Survey`: the response record and the column name each group selects.
- `OneHot`: the in-place indicator dictionary.
- `Encoder`: the encoding function and the method that follows the source step by step.
- `EncoderProperties`: what the encoding means.
- `Predictor`: the label step.

The encoding is specified by the function `Encoder.Encode`:

1. `LookupCodes` returns the first failed lookup or six codes.
2. `Vector` gives column i the value `ColumnValue(r, c, i)`.
   - The scalar columns hold the codes, the bucket and the scores.
   - An indicator column holds 1 exactly when its category value is its group's answer.

`Encoder.PreprocessInput` is proved equal to `Encode`. It builds the dictionaries as the source does and indexes the merged dictionary by the schema's column names. `EncoderProperties` then states field by field what `Encode` produces.

The table below lists the members that state something about the source. Lemmas without a row are proof helpers of these kinds:

- general facts about strings and sets;
- case splits over the schema's groups (prefix initials, scalar names against each prefix);
- the same facts stated on `LookupCodes` or `Vector` before they are lifted to `Encode`, and the unfolding of `Encode` into those two;
- the steps of the worked example;
- the decimal texts of the price-band bounds.

## Model

| member | source | states |
|---|---|---|
| Schema.GroupsTile | prediction_helper.py:9-25 | The schema has 37 columns. The ten indicator groups follow the eight scalar columns and one another without gap or overlap, the last ending at column 37. |
| Schema.ColumnAt | prediction_helper.py:9-25 | Column GroupStart(g)+k of the schema is named by group g's prefix joined to its k-th category value. |
| Schema.GroupOfAt | prediction_helper.py:12-24 | Position k of a group's columns lies in the indicator part, belongs to that group and holds its k-th category value. |
| Schema.GroupOf | prediction_helper.py:12-24 | Every indicator position lies between its group's first and last column. |
| Schema.PrefixDetermines | prediction_helper.py:88-128 | A column name can carry the prefix of only one group. |
| Schema.ScalarUnprefixed | prediction_helper.py:10-11 | No scalar column name starts with a group prefix. |
| Schema.IndicatorNotScalar | prediction_helper.py:79 | No indicator column has a scalar column's name, so the one-hot dictionary and the scalar dictionary have disjoint keys. |
| Schema.DomainDistinct | prediction_helper.py:12-24 | Within a group, the category values are pairwise distinct. |
| Schema.ScalarAt | prediction_helper.py:10-11 | The first eight schema columns are the scalar columns, in order. |
| Tables.Lookup | prediction_helper.py:31-39 | A subscript succeeds exactly on the table's keys, giving the key's code: its rank plus the table's base, so it lies in the table's code range. Any other key fails with a key error on that key (the model also records the table). |
| Tables.EntryRank | prediction_helper.py:31-64 | The keys of each of the six dictionaries are exactly its ranked keys. |
| Tables.Entries | prediction_helper.py:31-64 | Every code in the six dictionaries (five at lines 31-39, size at line 64) is its key's rank plus the table's base, so each table's codes run consecutively from its base. |
| Derived.AgeGroup | prediction_helper.py:49-61 | The bucket is in 1..6. A bucket g ≤ 5 means the age lies in the g-th bracket. Bucket 6 is given exactly when no bracket contains the age. |
| Derived.AgeGroupMonotone | prediction_helper.py:50-59 | Over ages 18..70 the bucket never decreases as age grows and stays at most 5. |
| Derived.AgeGroupBoundaries | prediction_helper.py:50-61 | 18 and 25 give 1, 26 gives 2, 70 gives 5, and 17 and 71 give 6. |
| Derived.CfAbHundredths | prediction_helper.py:44 | The hundredths are strictly less than half a hundredth from fs/(as+fs), and lie in 25..75. |
| Derived.RoundingUnambiguous | prediction_helper.py:44 | Any number of hundredths within half a hundredth of the ratio is the rounded value, so no tie arises. |
| Derived.CfAbScore | prediction_helper.py:44 | cf_ab_score is between 0.25 and 0.75. |
| Derived.ZasRange | prediction_helper.py:33-45 | With zone codes in 1..4 and income codes in 1..5, zas_score is 20 exactly for zone code 4 (Metro) with income code 5 ("> 35L"). |
| Derived.ZasScore | prediction_helper.py:45 | With zone codes in 1..4 and income codes in 1..5, the product lies in 1..20. |
| Derived.Bsi | prediction_helper.py:46 | bsi is the midpoint of cf_ab_score and zas_score: equally far from both, and between them. |
| Derived.ScoreExamples | prediction_helper.py:44-46 | On codes: frequency code 2 with awareness code 1 gives cf_ab_score 0.67; zone code 4 with income code 5 gives zas_score 20; bsi of the two is 10.335. |
| Survey.SelectedInGroup | prediction_helper.py:82-130 | An existing indicator column of a group is selected by the response exactly when its category value is the group's answer. |
| Survey.Choice | prediction_helper.py:82-85 | The gender answer always maps to one of the schema's two gender categories: "M" for "Male" and "F" for every other answer. |
| Survey.Selected | prediction_helper.py:88-128 | The column name a group constructs is its prefix followed by the answer: it starts with the prefix, and what follows the prefix is the answer. |
| OneHot.SelectedIsColumn | prediction_helper.py:88-130 | The name a group constructs is one of the one-hot dictionary's columns exactly when the group's answer is one of its category values; for any other answer the membership test fails and that group's update is skipped. |
| OneHot.SetIfPresent | prediction_helper.py:88-90 | After one group's update, the dictionary keeps its keys. The column set to 1 is the group's name when that name is a key, and nothing else changes. |
| OneHot.EveryGroupMarked | prediction_helper.py:82-130 | Once all ten groups are visited, a column is 1 exactly when some group's answer selects it. |
| OneHot.BuildOneHot | prediction_helper.py:79-130 | The one-hot dictionary's keys are the schema columns that are not scalar. Each is 1 exactly when some group's answer names it and 0 otherwise. |
| Encoder.LookupCodes | prediction_helper.py:42-71 | On success the six codes lie in the ranges the tables give them. |
| Encoder.Encode | prediction_helper.py:27-137 | A successful encoding has one entry per schema column. |
| Encoder.PreprocessInput | prediction_helper.py:27-137 | The step-by-step encoder returns exactly Encode(r): the same first failed lookup, or the same vector. |
| Encoder.MergeAndOrder | prediction_helper.py:79-137 | Building the one-hot dictionary, merging it over the scalar dictionary and reading the result in schema order gives the vector of Encode(r). |
| Encoder.ScalarDictionary | prediction_helper.py:67-76 | The scalar dictionary's keys are exactly the eight scalar column names (Encoder.ScalarMerged states the value under each). |
| Encoder.MergedInSchemaOrder | prediction_helper.py:136 | Entry i of the read-out is the merged dictionary's value of column TRAIN_FEATURES[i], and that read-out is the encoding. |
| Encoder.ScalarColumnsMerged | prediction_helper.py:67-133 | After the merge, every scalar column holds its looked-up or derived value: the one-hot dictionary does not overwrite it. |
| Encoder.ScalarMerged | prediction_helper.py:67-133 | The scalar column at position i of the merged dictionary holds the i-th scalar value. |
| Encoder.IndicatorColumnsMerged | prediction_helper.py:79-133 | After the merge, every indicator column holds 1 or 0 as its category value is or is not its group's answer. |
| Encoder.IndicatorMerged | prediction_helper.py:79-133 | The indicator column at position i of the merged dictionary holds its one-hot value. |
| EncoderProperties.EncodeSucceedsIffKnown | prediction_helper.py:42-71 | The encoding succeeds exactly when each of the six answers is a key of its table. |
| EncoderProperties.EncodeReportsFirstUnknown | prediction_helper.py:42-71 | A failed encoding reports the first table in evaluation order whose key is missing, with the answer it was subscripted with. |
| EncoderProperties.CodesOfAnswers | prediction_helper.py:42-71 | Successful lookups give the codes of the six answers. |
| EncoderProperties.ScalarEntries | prediction_helper.py:42-76 | A successful encoding has 37 entries. Its first eight hold, in order: the income, frequency, size and health codes of the answers; the age bucket; cf_ab_score; zone code × income code; and their mean. Ranges: bucket 1..6, cf_ab_score 0.25..0.75, zas_score 1..20. |
| EncoderProperties.MetroTopIncomeExample | prediction_helper.py:31-46 | A response answering "3-4 times", "0 to 1", "Metro" and "> 35L", with known size and health answers, encodes successfully with cf_ab_score 0.67, zas_score 20 and bsi 10.335. |
| EncoderProperties.IndicatorEntry | prediction_helper.py:79-136 | An indicator entry of a successful encoding is 1 exactly when its category value is its group's answer, and 0 otherwise. For gender the answer is "M" for "Male" and "F" for anything else. |
| EncoderProperties.GroupMarksAtMostOne | prediction_helper.py:79-130 | Every indicator entry is 0 or 1, and no group has two entries at 1. |
| EncoderProperties.IndicatorSum | prediction_helper.py:79-130 | An indicator sequence over distinct labels sums to 1 when the answer is a label and to 0 otherwise. |
| EncoderProperties.GroupSum | prediction_helper.py:79-136 | A group's columns in a successful encoding sum to 1 when its answer is one of its category values and to 0 otherwise. |
| EncoderProperties.UnknownAnswerAllZero | prediction_helper.py:92-130 | An answer outside its group's category values leaves every column of the group at 0, without an error. |
| EncoderProperties.KnownZoneIsCategory | prediction_helper.py:12-33 | Every key of the zone table is a zone category of the schema. |
| EncoderProperties.KnownAwarenessIsCategory | prediction_helper.py:15-32 | Every key of the awareness table is an awareness category of the schema. |
| EncoderProperties.GenderMarksOne | prediction_helper.py:82-85 | Exactly one gender column is 1. |
| EncoderProperties.ZoneMarksOne | prediction_helper.py:45-90 | In a successful encoding exactly one zone column is 1, since the zone passed its lookup. |
| EncoderProperties.AwarenessMarksOne | prediction_helper.py:43-105 | In a successful encoding exactly one awareness column is 1, since the awareness answer passed its lookup. |
| EncoderProperties.GenderColumns | prediction_helper.py:82-85 | gender_M is 1 exactly for "Male", and gender_F is its complement. |
| Predictor.Label | prediction_helper.py:150 | The label subscript succeeds exactly on classes 0..3, giving the class's price range, and otherwise fails naming the class. |
| Predictor.LabelMap | prediction_helper.py:141-146 | The label dictionary's keys are exactly the classes 0..3, and each class maps to its price range. |
| Predictor.PriceBands | prediction_helper.py:141-146 | Class k is the band from 50(k+1) to 50(k+2) rupees, written as the labels write it. |
| Predictor.LabelsDistinct | prediction_helper.py:141-146 | Distinct classes have distinct labels. |
| Predictor.Predict | prediction_helper.py:140-150 | A failed encoding is reported as such. Otherwise the result is the label of the classifier's class for the encoded vector. |

## Left out

- The web form that collects the answers is not part of this model. It is presentation only; the model starts from the answer record it builds.
- Loading the serialized classifier from disk is left out: it is file I/O of an opaque artifact.
- The classifier itself is left out. `Predictor.Predict` takes it as a function parameter from the vector to a class number, which is taken as already converted to an integer.
- The data-frame wrapper is left out. The vector is a sequence of reals in column order.
- The key error of a failed lookup carries only the missing key. The model's error also names the table, so that which lookup failed first can be stated.
- Floating point is left out: division, rounding and the mean are exact reals. For cf_ab_score this loses nothing, since the rounded value is proved free of ties (`Derived.RoundingUnambiguous`).
- Derived.CfAbHundredths, Derived.CfAbScore: these require both codes in 1..3. These are the only codes the two lookups can return, and the score is only computed after them.
- The answer record: every field is present, and the age is an integer. A missing field raises in the source, and so does a non-numeric age; neither is modelled. A decimal age is accepted by the source and bucketed by the same comparisons. One inside a bracket gets that bracket, and one between two brackets (25 < age < 26, and so on) lands in bucket 6. The model takes integer ages only.
- Predictor.Predict: the errors the source raises (a missing key while encoding, an unknown class in the label dictionary) are returned as a `PredictError` value instead of propagating as exceptions.
- The income keys follow the dictionary in the code, with spaces around the dash ("10L - 15L", "16L - 25L", "26L - 35L") and "> 35L"; unspaced spellings are unknown keys.
