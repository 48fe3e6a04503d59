/** How the inference-time encoding of app.py lines up with the columns the
    classifier was trained on by scripts/data_preprocessing.py: the day codes
    and the category slots agree, time_PM does not. */
module Consistency {
  import opened Common
  import opened Strings
  import opened Inference
  import opened Training

  /** The category values of the training data once clean_data has turned
      "-" into "unknown", in sorted order. */
  const TrainingCategoryLevels: seq<string> := ["Aqua", "Cycling", "HIIT", "Strength", "Yoga", "unknown"]

  /** The time values of the training data, in sorted order. */
  const TrainingTimeLevels: seq<string> := ["AM", "PM"]

  lemma TrainingCategoryLevelsSorted()
    ensures StrictlySorted(TrainingCategoryLevels)
  {
    var s := TrainingCategoryLevels;
    forall i, j | 0 <= i < j < |s|
      ensures StrLt(s[i], s[j])
    {
      assert s[i][0] < s[j][0];
    }
  }

  lemma TrainingTimeLevelsSorted()
    ensures StrictlySorted(TrainingTimeLevels)
  {
    assert StrLt("AM", "PM");
  }

  /** A column whose strings are the six training categories has them as its
      levels, and drop_first leaves exactly the five schema categories: Aqua,
      the smallest, is the one without a column. */
  lemma CategoryLevelsOfTrainingData(cells: seq<Cell>)
    requires forall y :: Text(y) in cells <==> y in TrainingCategoryLevels
    ensures Levels(cells) == TrainingCategoryLevels
    ensures Kept(Levels(cells)) == SlotCategories
    ensures DummyColumns("category", Kept(Levels(cells))) == ExpectedColumns[4..9]
  {
    TrainingCategoryLevelsSorted();
    StrictlySortedUnique(Levels(cells), TrainingCategoryLevels);
    assert TrainingCategoryLevels[1..] == SlotCategories;
    SlotCategoryColumns();
  }

  /** The dummy columns of the five schema categories are slots 4 to 8 of
      the schema. */
  lemma SlotCategoryColumns()
    ensures DummyColumns("category", SlotCategories) == ExpectedColumns[4..9]
  {
    SchemaCategoryColumns();
  }

  /** A column whose strings are AM and PM has one dummy column under
      drop_first, and it is time_PM: AM is the level without a column. */
  lemma TimeLevelsOfTrainingData(cells: seq<Cell>)
    requires forall y :: Text(y) in cells <==> y in TrainingTimeLevels
    ensures Levels(cells) == TrainingTimeLevels
    ensures DummyColumns("time", Kept(Levels(cells))) == ExpectedColumns[9..]
  {
    TrainingTimeLevelsSorted();
    StrictlySortedUnique(Levels(cells), TrainingTimeLevels);
    assert Kept(TrainingTimeLevels) == ["PM"];
    assert DummyColumns("time", ["PM"])[0] == "time_PM";
  }

  /** On the training data, get_dummies appends exactly the schema's six
      dummy columns, in the schema's order, after the columns it keeps. */
  lemma TrainingDummiesMatchSchema(t: Table)
    requires Encodable(t) && "category" in t.columns && "time" in t.columns
    requires forall y :: Text(y) in Column(t.rows, "category") <==> y in TrainingCategoryLevels
    requires forall y :: Text(y) in Column(t.rows, "time") <==> y in TrainingTimeLevels
    ensures EncodeCategorical(t).Ok?
    ensures EncodeCategorical(t).value.columns == Unencoded(t.columns) + ExpectedColumns[4..]
  {
    CategoryLevelsOfTrainingData(Column(t.rows, "category"));
    TimeLevelsOfTrainingData(Column(t.rows, "time"));
    assert ExpectedColumns[4..] == ExpectedColumns[4..9] + ExpectedColumns[9..];
  }

  /** The day tables agree: a string whose first three letters are a day
      token gets, at training time, the code the inference lookup gives that
      token; and every code clean_data produces is the inference code of the
      string's first three letters. */
  lemma DayCodesAgree(s: string)
    ensures |s| >= 3 && s[..3] in DayOfWeekCodes ==>
              WeekdayCode(Text(s)) == Int(DayCode(map["day_of_week" := Text(s[..3])]).value)
    ensures WeekdayCode(Text(s)).Int? ==>
              |s| >= 3 && DayCode(map["day_of_week" := Text(s[..3])]) == Some(WeekdayCode(Text(s)).i)
  {
    assert DayCodes == DayOfWeekCodes;
    if |s| >= 3 {
      WeekdayCodeReadsPrefix(s);
    }
  }

  /** A training row and an inference dict with the same category get the
      same five category indicators: the training dummies for the five schema
      categories equal slots 4 to 8 of the inference vector. */
  lemma CategoryEncodingAgrees(src: Row, cells: seq<Cell>, timeLevels: seq<string>, d: Row)
    requires "category" in src && "time" in src
    requires forall c :: c in src ==> !IsDummyOf("category", c) && !IsDummyOf("time", c)
    requires forall y :: Text(y) in cells <==> y in TrainingCategoryLevels
    requires Admissible(d) && Encode(d).Some? && src["category"] == d["category"]
    ensures var row := EncodedRow(src, Kept(Levels(cells)), Kept(timeLevels));
            forall k :: 4 <= k < 9 ==> ExpectedColumns[k] in row && row[ExpectedColumns[k]] == Encode(d).value[k]
  {
    CategoryLevelsOfTrainingData(cells);
    TrainingCategoryLevelsSorted();
    EncodedRowCategory(src, TrainingCategoryLevels, timeLevels);
    CategorySlotsOneHot(d);
    var row := EncodedRow(src, Kept(TrainingCategoryLevels), Kept(timeLevels));
    var x := Encode(d).value;
    forall k | 4 <= k < 9
      ensures ExpectedColumns[k] in row && row[ExpectedColumns[k]] == x[k]
    {
      assert ExpectedColumns[k] == DummyName("category", TrainingCategoryLevels[k - 3]);
      assert TrainingCategoryLevels[k - 3] == SlotCategories[k - 4];
    }
  }

  /** time_PM is where the two encodings part: a PM row has time_PM = 1 in
      the training frame, while a PM booking gets time_PM = 0 at inference. */
  lemma TimePMDiverges(src: Row, categoryLevels: seq<string>, cells: seq<Cell>, d: Row)
    requires "category" in src && "time" in src && src["time"] == Text("PM")
    requires forall c :: c in src ==> !IsDummyOf("category", c) && !IsDummyOf("time", c)
    requires forall y :: Text(y) in cells <==> y in TrainingTimeLevels
    requires Admissible(d) && Encode(d).Some? && d["time"] == Text("PM")
    ensures var row := EncodedRow(src, Kept(categoryLevels), Kept(Levels(cells)));
            "time_PM" in row && row["time_PM"] == Int(1)
    ensures Encode(d).value[9] == Int(0)
  {
    TimeLevelsOfTrainingData(cells);
    TrainingTimeLevelsSorted();
    EncodedRowTime(src, categoryLevels, TrainingTimeLevels);
    assert DummyName("time", TrainingTimeLevels[1]) == "time_PM";
    TimePMIsAlwaysZero(d);
  }
}
