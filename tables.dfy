/**
 * The fixed ordinal lookup tables of the encoder. A lookup of a key that is
 * not in its table fails with a key error carrying the missing key; the
 * error also records which table was searched.
 */
module Tables {
  import opened Wrappers

  /** The six dictionaries the encoder subscripts. */
  datatype Table = FreqTable | AwarenessTable | ZoneTable | IncomeTable | HealthTable | SizeTable

  /** A failed subscript: the table that was searched and the key that was missing. */
  datatype LookupError = KeyError(table: Table, key: string)

  /**
   * The dictionary of a table, as the encoder writes it. Every code it holds
   * is the rank of its key plus the table's base.
   */
  function Entries(t: Table): (m: map<string, int>)
    ensures forall key | key in m ::
      Base(t) <= m[key] < Base(t) + |Ranking(t)| && Ranking(t)[m[key] - Base(t)] == key
  {
    match t
    case FreqTable => map["0-2 times" := 1, "3-4 times" := 2, "5-7 times" := 3]
    case AwarenessTable => map["0 to 1" := 1, "2 to 4" := 2, "above 4" := 3]
    case ZoneTable => map["Urban" := 3, "Metro" := 4, "Rural" := 1, "Semi-Urban" := 2]
    case IncomeTable => map["<10L" := 1, "10L - 15L" := 2, "16L - 25L" := 3, "26L - 35L" := 4, "> 35L" := 5]
    case HealthTable => map[
        "Low (Not very concerned)" := 0,
        "Medium (Moderately health-conscious)" := 1,
        "High (Very health-conscious)" := 2]
    case SizeTable => map["Small" := 0, "Medium" := 1, "Large" := 2]
  }

  /** The keys of a table ranked from lowest to highest code. */
  function Ranking(t: Table): seq<string> {
    match t
    case FreqTable => ["0-2 times", "3-4 times", "5-7 times"]
    case AwarenessTable => ["0 to 1", "2 to 4", "above 4"]
    case ZoneTable => ["Rural", "Semi-Urban", "Urban", "Metro"]
    case IncomeTable => ["<10L", "10L - 15L", "16L - 25L", "26L - 35L", "> 35L"]
    case HealthTable => ["Low (Not very concerned)", "Medium (Moderately health-conscious)", "High (Very health-conscious)"]
    case SizeTable => ["Small", "Medium", "Large"]
  }

  /** The code of the lowest-ranked key. */
  function Base(t: Table): int {
    match t
    case FreqTable | AwarenessTable | ZoneTable | IncomeTable => 1
    case HealthTable | SizeTable => 0
  }

  /**
   * Subscripts a table. It succeeds exactly on the table's keys, and the code
   * of a key is its rank plus the table's base, so every code lies in
   * Base(t) .. Base(t) + |Ranking(t)| - 1.
   */
  function Lookup(t: Table, key: string): (r: Result<int, LookupError>)
    ensures r.Success? <==> key in Ranking(t)
    ensures r.Success? ==>
      Base(t) <= r.value < Base(t) + |Ranking(t)| && Ranking(t)[r.value - Base(t)] == key
    ensures r.Failure? ==> r.error == KeyError(t, key)
  {
    EntryRank(t, key);
    var m := Entries(t);
    if key in m then Success(m[key]) else Failure(KeyError(t, key))
  }

  /** A dictionary's keys are exactly its ranked keys. */
  lemma EntryRank(t: Table, key: string)
    ensures key in Entries(t) <==> key in Ranking(t)
  {
    match t
    case FreqTable =>
    case AwarenessTable =>
    case ZoneTable =>
    case IncomeTable =>
    case HealthTable =>
    case SizeTable =>
  }
}
