/** The survey answers the encoder receives, and the answer behind each one-hot group. */
module Survey {
  import opened Schema

  /**
   * One survey response. Every field of the answer record is present; the
   * text fields hold whatever display string the form supplied.
   */
  datatype SurveyResponse = SurveyResponse(
    age: int,
    gender: string,
    zone: string,
    occupation: string,
    incomeLevels: string,
    consumeFrequency: string,
    healthConcerns: string,
    consumptionSize: string,
    awareness: string,
    currentBrand: string,
    reasons: string,
    flavor: string,
    purchaseChannel: string,
    packaging: string,
    situation: string)

  /**
   * The category value that names a group's indicator column: the answer
   * itself, except for gender, where "Male" gives "M" and every other answer
   * gives "F".
   */
  function Choice(r: SurveyResponse, g: Group): (c: string)
    ensures g == Gender ==> c == Domain(Gender)[if r.gender == "Male" then 1 else 0]
  {
    match g
    case Gender => if r.gender == "Male" then "M" else "F"
    case Zone => r.zone
    case Occupation => r.occupation
    case CurrentBrand => r.currentBrand
    case Awareness => r.awareness
    case Reasons => r.reasons
    case Flavor => r.flavor
    case PurchaseChannel => r.purchaseChannel
    case Packaging => r.packaging
    case Situation => r.situation
  }

  /** The indicator column name a response selects in a group; it need not exist in the schema. */
  function Selected(r: SurveyResponse, g: Group): (s: string)
    ensures Prefix(g) <= s && s[|Prefix(g)|..] == Choice(r, g)
  {
    PrefixOfJoin(Prefix(g), Choice(r, g));
    Prefix(g) + Choice(r, g)
  }

  /** A column name is selected when some group's answer constructs it. */
  predicate IsSelected(r: SurveyResponse, c: string) {
    exists g: Group :: c == Selected(r, g)
  }

  /** The names that the groups in done select. */
  ghost function SelectedSet(r: SurveyResponse, done: set<Group>): set<string> {
    set g | g in done :: Selected(r, g)
  }

  /** Visiting one more group adds exactly its selected name. */
  lemma SelectedSetStep(r: SurveyResponse, done: set<Group>, g: Group)
    ensures SelectedSet(r, done + {g}) == SelectedSet(r, done) + {Selected(r, g)}
  {
  }

  /**
   * An existing indicator column of group g is selected exactly when its
   * category value is the response's answer for g: a name selected for
   * another group never lands in g, because the two prefixes differ.
   */
  lemma SelectedInGroup(r: SurveyResponse, g: Group, k: int)
    requires 0 <= k < |Domain(g)|
    ensures IsSelected(r, Prefix(g) + Domain(g)[k]) <==> Domain(g)[k] == Choice(r, g)
  {
    var c := Prefix(g) + Domain(g)[k];
    if Domain(g)[k] == Choice(r, g) {
      assert c == Selected(r, g);
    }
    if IsSelected(r, c) {
      var h :| c == Prefix(h) + Choice(r, h);
      PrefixOfJoin(Prefix(h), Choice(r, h));
      PrefixOfJoin(Prefix(g), Domain(g)[k]);
      PrefixDetermines(g, h, c);
      JoinCancel(Prefix(g), Domain(g)[k], Choice(r, g));
    }
  }

  lemma PrefixOfJoin(p: string, x: string)
    ensures p <= p + x
  {
    assert (p + x)[..|p|] == p;
  }

  lemma JoinCancel(p: string, x: string, y: string)
    requires p + x == p + y
    ensures x == y
  {
    assert x == (p + x)[|p|..];
    assert y == (p + y)[|p|..];
  }
}
