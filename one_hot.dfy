/** The one-hot half of the encoder: a dictionary of indicator columns updated in place. */
module OneHot {
  import opened Schema
  import opened Survey

  /** The indicator columns: every schema column that is not a scalar column. */
  function IndicatorKeys(): set<string> {
    set c | c in TrainFeatures && c !in ScalarColumns
  }

  /**
   * The name a group constructs is one of the indicator columns exactly when
   * the group's answer is one of its category values; otherwise the update
   * for that group is skipped.
   */
  lemma SelectedIsColumn(r: SurveyResponse, g: Group)
    ensures Selected(r, g) in IndicatorKeys() <==> Choice(r, g) in Domain(g)
  {
    if Choice(r, g) in Domain(g) {
      var k :| 0 <= k < |Domain(g)| && Domain(g)[k] == Choice(r, g);
      CategoryColumn(g, k);
    }
    if Selected(r, g) in IndicatorKeys() {
      ColumnCategory(r, g);
    }
  }

  /** The name formed from a category value of a group is an indicator column. */
  lemma CategoryColumn(g: Group, k: int)
    requires 0 <= k < |Domain(g)|
    ensures Prefix(g) + Domain(g)[k] in IndicatorKeys()
  {
    ColumnAt(g, k);
    IndicatorNotScalar(GroupStart(g) + k);
  }

  /** A constructed name that is an indicator column carries one of its group's category values. */
  lemma ColumnCategory(r: SurveyResponse, g: Group)
    requires Selected(r, g) in IndicatorKeys()
    ensures Choice(r, g) in Domain(g)
  {
    var c := Selected(r, g);
    var i :| 0 <= i < |TrainFeatures| && TrainFeatures[i] == c;
    if i < ScalarCount {
      ScalarAt(i);
      assert false;
    }
    var h := GroupOf(i);
    var k := i - GroupStart(h);
    ColumnAt(h, k);
    PrefixOfJoin(Prefix(h), Domain(h)[k]);
    PrefixDetermines(g, h, c);
    JoinCancel(Prefix(g), Domain(g)[k], Choice(r, g));
  }

  /**
   * The indicator dictionary holds every indicator column, at 1 exactly on
   * the names in marked.
   */
  ghost predicate MarkedExactly(oneHot: map<string, int>, marked: set<string>) {
    && oneHot.Keys == IndicatorKeys()
    && forall c | c in oneHot :: oneHot[c] == if c in marked then 1 else 0
  }

  /** Once every group has been visited, the marked names are exactly the selected ones. */
  lemma EveryGroupMarked(oneHot: map<string, int>, r: SurveyResponse, done: set<Group>)
    requires MarkedExactly(oneHot, SelectedSet(r, done))
    requires forall g: Group :: g in done
    ensures forall c | c in oneHot :: oneHot[c] == if IsSelected(r, c) then 1 else 0
  {
    forall c | c in oneHot
      ensures oneHot[c] == if IsSelected(r, c) then 1 else 0
    {
      if IsSelected(r, c) {
        var g :| c == Selected(r, g);
        assert c in SelectedSet(r, done);
      }
    }
  }

  /**
   * Sets an indicator column to 1 when the name is one of the dictionary's
   * columns and leaves the dictionary as it is otherwise.
   */
  method SetIfPresent(oneHot: map<string, int>, col: string,
                      ghost r: SurveyResponse, ghost done: set<Group>, ghost g: Group)
    returns (updated: map<string, int>)
    requires MarkedExactly(oneHot, SelectedSet(r, done)) && col == Selected(r, g)
    ensures MarkedExactly(updated, SelectedSet(r, done + {g}))
  {
    SelectedSetStep(r, done, g);
    updated := oneHot;
    if col in updated {
      updated := updated[col := 1];
    }
  }

  /**
   * Starts every indicator column at 0, then sets to 1 the column each group
   * selects; a constructed name that is not an indicator column is skipped.
   * Only gender is set unconditionally, to gender_M for "Male" and gender_F
   * otherwise.
   */
  method BuildOneHot(r: SurveyResponse) returns (oneHot: map<string, int>)
    ensures oneHot.Keys == IndicatorKeys()
    ensures forall c | c in oneHot :: oneHot[c] == if IsSelected(r, c) then 1 else 0
  {
    oneHot := map c | c in TrainFeatures && c !in ScalarColumns :: 0;

    ColumnAt(Gender, 0);
    ColumnAt(Gender, 1);
    IndicatorNotScalar(8);
    IndicatorNotScalar(9);
    if r.gender == "Male" {
      assert Selected(r, Gender) == "gender_M";
      oneHot := oneHot["gender_M" := 1];
    } else {
      assert Selected(r, Gender) == "gender_F";
      oneHot := oneHot["gender_F" := 1];
    }
    ghost var done := {Gender};
    SelectedSetStep(r, {}, Gender);
    assert MarkedExactly(oneHot, SelectedSet(r, done));

    var zoneCol := Selected(r, Zone);
    oneHot := SetIfPresent(oneHot, zoneCol, r, done, Zone);
    done := done + {Zone};

    var occCol := Selected(r, Occupation);
    oneHot := SetIfPresent(oneHot, occCol, r, done, Occupation);
    done := done + {Occupation};

    var brandCol := Selected(r, CurrentBrand);
    oneHot := SetIfPresent(oneHot, brandCol, r, done, CurrentBrand);
    done := done + {CurrentBrand};

    var awareCol := Selected(r, Awareness);
    oneHot := SetIfPresent(oneHot, awareCol, r, done, Awareness);
    done := done + {Awareness};

    var reasonCol := Selected(r, Reasons);
    oneHot := SetIfPresent(oneHot, reasonCol, r, done, Reasons);
    done := done + {Reasons};

    var flavorCol := Selected(r, Flavor);
    oneHot := SetIfPresent(oneHot, flavorCol, r, done, Flavor);
    done := done + {Flavor};

    var purchaseCol := Selected(r, PurchaseChannel);
    oneHot := SetIfPresent(oneHot, purchaseCol, r, done, PurchaseChannel);
    done := done + {PurchaseChannel};

    var packageCol := Selected(r, Packaging);
    oneHot := SetIfPresent(oneHot, packageCol, r, done, Packaging);
    done := done + {Packaging};

    var situationCol := Selected(r, Situation);
    oneHot := SetIfPresent(oneHot, situationCol, r, done, Situation);
    done := done + {Situation};
    forall g: Group
      ensures g in done
    {
      match g
      case Gender =>
      case Zone =>
      case Occupation =>
      case CurrentBrand =>
      case Awareness =>
      case Reasons =>
      case Flavor =>
      case PurchaseChannel =>
      case Packaging =>
      case Situation =>
    }
    EveryGroupMarked(oneHot, r, done);
  }
}
