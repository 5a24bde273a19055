/**
 * The 37-column training schema of the price-range classifier and its layout:
 * eight scalar columns followed by ten groups of one-hot indicator columns,
 * each indicator named by its group's prefix and one category value.
 */
module Schema {

  /**
   * The exact column order the classifier was trained on: the eight scalar
   * columns, then the indicator columns, each named by the group that owns
   * its position joined to one category value, e.g. "zone_Metro",
   * "zone_Rural", "zone_Semi-Urban", "zone_Urban".
   */
  const TrainFeatures: seq<string> := ScalarColumns + IndicatorColumns()

  /** Number of columns of the schema. */
  const ColumnCount: nat := 37

  /** Number of label-encoded and derived columns at the head of the schema. */
  const ScalarCount: nat := 8

  /** The scalar (label-encoded or derived) column names, in schema order. */
  const ScalarColumns: seq<string> := [
    "income_levels", "consume_frequency(weekly)", "preferable_consumption_size",
    "health_concerns", "age_group", "cf_ab_score", "zas_score", "bsi"
  ]

  /** The categorical groups that are one-hot encoded, in schema order. */
  datatype Group =
    | Gender | Zone | Occupation | CurrentBrand | Awareness
    | Reasons | Flavor | PurchaseChannel | Packaging | Situation

  /** The groups in schema order. */
  const OneHotGroups: seq<Group> := [
    Gender, Zone, Occupation, CurrentBrand, Awareness,
    Reasons, Flavor, PurchaseChannel, Packaging, Situation
  ]

  /** The prefix of every indicator column of a group. */
  function Prefix(g: Group): string {
    match g
    case Gender => "gender_"
    case Zone => "zone_"
    case Occupation => "occupation_"
    case CurrentBrand => "current_brand_"
    case Awareness => "awareness_of_other_brands_"
    case Reasons => "reasons_for_choosing_brands_"
    case Flavor => "flavor_preference_"
    case PurchaseChannel => "purchase_channel_"
    case Packaging => "packaging_preference_"
    case Situation => "typical_consumption_situations_"
  }

  /** The category values of a group that have a column, in schema order. */
  function Domain(g: Group): seq<string> {
    match g
    case Gender => ["F", "M"]
    case Zone => ["Metro", "Rural", "Semi-Urban", "Urban"]
    case Occupation => ["Entrepreneur", "Retired", "Student", "Working Professional"]
    case CurrentBrand => ["Established", "Newcomer"]
    case Awareness => ["0 to 1", "2 to 4", "above 4"]
    case Reasons => ["Availability", "Brand Reputation", "Price", "Quality"]
    case Flavor => ["Exotic", "Traditional"]
    case PurchaseChannel => ["Online", "Retail Store"]
    case Packaging => ["Eco-Friendly", "Premium", "Simple"]
    case Situation => ["Active (eg. Sports, gym)", "Casual (eg. At home)", "Social (eg. Parties)"]
  }

  /** Index of a group's first column in the schema. */
  function GroupStart(g: Group): nat {
    match g
    case Gender => 8
    case Zone => 10
    case Occupation => 14
    case CurrentBrand => 18
    case Awareness => 20
    case Reasons => 23
    case Flavor => 27
    case PurchaseChannel => 29
    case Packaging => 31
    case Situation => 34
  }

  /** One past the index of a group's last column. */
  function GroupEnd(g: Group): nat {
    GroupStart(g) + |Domain(g)|
  }

  /** The group that owns indicator column i. */
  function GroupOf(i: int): (g: Group)
    requires ScalarCount <= i < ColumnCount
    ensures GroupStart(g) <= i < GroupEnd(g)
  {
    if i < 10 then Gender
    else if i < 14 then Zone
    else if i < 18 then Occupation
    else if i < 20 then CurrentBrand
    else if i < 23 then Awareness
    else if i < 27 then Reasons
    else if i < 29 then Flavor
    else if i < 31 then PurchaseChannel
    else if i < 34 then Packaging
    else Situation
  }

  /** The indicator columns, in schema order. */
  function IndicatorColumns(): (cs: seq<string>)
    ensures |cs| == ColumnCount - ScalarCount
  {
    seq(ColumnCount - ScalarCount, j requires 0 <= j < ColumnCount - ScalarCount => IndicatorName(ScalarCount + j))
  }

  /** The category value of the indicator column at position i within its group. */
  function CategoryAt(i: int): string
    requires ScalarCount <= i < ColumnCount
  {
    Domain(GroupOf(i))[i - GroupStart(GroupOf(i))]
  }

  /** The name of the indicator column at position i: its group's prefix and its category value. */
  function IndicatorName(i: int): string
    requires ScalarCount <= i < ColumnCount
  {
    Prefix(GroupOf(i)) + CategoryAt(i)
  }

  /** Position k of a group's columns belongs to that group and holds its k-th category value. */
  lemma GroupOfAt(g: Group, k: int)
    requires 0 <= k < |Domain(g)|
    ensures ScalarCount <= GroupStart(g) + k < ColumnCount
    ensures GroupOf(GroupStart(g) + k) == g && CategoryAt(GroupStart(g) + k) == Domain(g)[k]
  {
    match g
    case Gender =>
    case Zone =>
    case Occupation =>
    case CurrentBrand =>
    case Awareness =>
    case Reasons =>
    case Flavor =>
    case PurchaseChannel =>
    case Packaging =>
    case Situation =>
  }

  /**
   * The groups tile the indicator part of the schema: they follow one
   * another in schema order, the first right after the scalar columns and
   * the last ending at the end of the schema.
   */
  lemma GroupsTile()
    ensures |TrainFeatures| == ColumnCount
    ensures GroupStart(OneHotGroups[0]) == ScalarCount
    ensures forall j | 0 <= j < |OneHotGroups| - 1 :: GroupEnd(OneHotGroups[j]) == GroupStart(OneHotGroups[j + 1])
    ensures GroupEnd(OneHotGroups[|OneHotGroups| - 1]) == ColumnCount
  {
  }

  /** Every indicator column is its group's prefix joined to one category value. */
  lemma ColumnAt(g: Group, k: int)
    requires 0 <= k < |Domain(g)|
    ensures |TrainFeatures| == 37 && GroupEnd(g) <= |TrainFeatures|
    ensures TrainFeatures[GroupStart(g) + k] == Prefix(g) + Domain(g)[k]
  {
    var i := GroupStart(g) + k;
    GroupOfAt(g, k);
    assert TrainFeatures[i] == IndicatorColumns()[i - ScalarCount];
    assert IndicatorColumns()[i - ScalarCount] == IndicatorName(ScalarCount + (i - ScalarCount));
  }

  /** The first character of a group's prefix. */
  function Initial(g: Group): char {
    match g
    case Gender => 'g'
    case Zone => 'z'
    case Occupation => 'o'
    case CurrentBrand => 'c'
    case Awareness => 'a'
    case Reasons => 'r'
    case Flavor => 'f'
    case PurchaseChannel => 'p'
    case Packaging => 'p'
    case Situation => 't'
  }

  /** Each prefix starts with its group's initial. */
  lemma PrefixInitial(g: Group)
    ensures |Prefix(g)| >= 2 && Prefix(g)[0] == Initial(g)
  {
    match g
    case Gender =>
    case Zone =>
    case Occupation =>
    case CurrentBrand =>
    case Awareness =>
    case Reasons =>
    case Flavor =>
    case PurchaseChannel =>
    case Packaging =>
    case Situation =>
  }

  /** The first two characters of a column name decide which group's prefix it can carry. */
  lemma PrefixDetermines(g: Group, h: Group, c: string)
    requires Prefix(g) <= c && Prefix(h) <= c
    ensures g == h
  {
    PrefixInitial(g);
    PrefixInitial(h);
    assert c[0] == Prefix(g)[0] == Prefix(h)[0];
    if Initial(g) == 'p' {
      assert Prefix(PurchaseChannel)[1] == 'u' && Prefix(Packaging)[1] == 'a';
      assert c[1] == Prefix(g)[1] == Prefix(h)[1];
    }
  }

  /** No scalar column carries a group prefix. */
  lemma ScalarUnprefixed(g: Group, i: int)
    requires 0 <= i < ScalarCount
    ensures !(Prefix(g) <= ScalarColumns[i])
  {
    if g.Gender? || g.Zone? || g.Occupation? || g.CurrentBrand? || g.Awareness? {
      LeadingGroupsUnprefixed(g, i);
    } else {
      TrailingGroupsUnprefixed(g, i);
    }
  }

  /** ScalarUnprefixed for the first five groups. */
  lemma LeadingGroupsUnprefixed(g: Group, i: int)
    requires 0 <= i < ScalarCount
    requires g.Gender? || g.Zone? || g.Occupation? || g.CurrentBrand? || g.Awareness?
    ensures !(Prefix(g) <= ScalarColumns[i])
  {
    var c := ScalarColumns[i];
    var p := Prefix(g);
    match g
    case Gender => assert c[0] != p[0];
    case Zone => assert c[0] != p[0] || c[1] != p[1];
    case Occupation => assert c[0] != p[0];
    case CurrentBrand => assert c[0] != p[0] || c[1] != p[1];
    case Awareness => assert c[0] != p[0] || c[1] != p[1];
  }

  /** ScalarUnprefixed for the last five groups. */
  lemma TrailingGroupsUnprefixed(g: Group, i: int)
    requires 0 <= i < ScalarCount
    requires g.Reasons? || g.Flavor? || g.PurchaseChannel? || g.Packaging? || g.Situation?
    ensures !(Prefix(g) <= ScalarColumns[i])
  {
    var c := ScalarColumns[i];
    var p := Prefix(g);
    match g
    case Reasons => assert c[0] != p[0];
    case Flavor => assert c[0] != p[0];
    case PurchaseChannel => assert c[0] != p[0] || c[1] != p[1];
    case Packaging => assert c[0] != p[0] || c[1] != p[1];
    case Situation => assert c[0] != p[0];
  }

  /** Within a group, the category values are pairwise distinct. */
  lemma DomainDistinct(g: Group)
    ensures forall k, k' | 0 <= k < k' < |Domain(g)| :: Domain(g)[k] != Domain(g)[k']
  {
    forall k, k' | 0 <= k < k' < |Domain(g)|
      ensures Domain(g)[k] != Domain(g)[k']
    {
      assert Domain(g)[k][0] != Domain(g)[k'][0];
    }
  }

  /** The scalar columns head the schema. */
  lemma ScalarAt(i: int)
    requires 0 <= i < ScalarCount
    ensures |TrainFeatures| == 37 && TrainFeatures[i] == ScalarColumns[i]
  {
  }

  /** No indicator column has the name of a scalar column. */
  lemma IndicatorNotScalar(i: int)
    requires ScalarCount <= i < |TrainFeatures|
    ensures TrainFeatures[i] !in ScalarColumns
  {
    var g := GroupOf(i);
    ColumnAt(g, i - GroupStart(g));
    assert Prefix(g) <= TrainFeatures[i];
    forall j | 0 <= j < ScalarCount
      ensures TrainFeatures[i] != ScalarColumns[j]
    {
      ScalarUnprefixed(g, j);
    }
  }
}
