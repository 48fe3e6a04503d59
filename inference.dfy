/** The inference-time feature encoding of app.py (FitnessAttendancePredictor
    .preprocess_input), as functions of the caller's dict. The method that
    runs it in place is App.FitnessAttendancePredictor.PreprocessInput. */
module Inference {
  import opened Common
  import opened Strings

  /** The keys of the dict the input form builds (app.py:103-110). */
  const FormFields: set<string> :=
    {"months_as_member", "weight", "days_before", "day_of_week", "time", "category"}

  /** The day lookup of app.py:32. */
  const DayOfWeekCodes: map<string, int> :=
    map["Mon" := 1, "Tue" := 2, "Wed" := 3, "Thu" := 4, "Fri" := 5, "Sat" := 6, "Sun" := 7]

  /** The time lookup of app.py:33. */
  const TimeCodes: map<string, int> := map["AM" := 0, "PM" := 1]

  /** The category levels that have a slot in the trained schema. */
  const SlotCategories: seq<string> := ["Cycling", "HIIT", "Strength", "Yoga", "unknown"]

  /** The schema the classifier was fitted on, in order (app.py:41-45). */
  const ExpectedColumns: seq<string> := [
    "months_as_member", "weight", "days_before", "day_of_week",
    "category_Cycling", "category_HIIT", "category_Strength",
    "category_Yoga", "category_unknown", "time_PM"
  ]

  /** The dicts this model covers: only the form's keys (some may be absent)
      and a string category, as every caller passes. */
  predicate Admissible(d: Row)
  {
    d.Keys <= FormFields && ("category" in d ==> d["category"].Text?)
  }

  /** The code `day_mapping[input_data['day_of_week']]` yields, or None where
      it raises KeyError (key absent, or a value that is not one of the seven tokens). */
  function DayCode(d: Row): (code: Option<int>)
    ensures code.Some? ==> 1 <= code.value <= 7
  {
    if "day_of_week" in d && d["day_of_week"].Text? && d["day_of_week"].s in DayOfWeekCodes
    then Some(DayOfWeekCodes[d["day_of_week"].s])
    else None
  }

  /** The code `time_mapping[input_data['time']]` yields, or None where it raises KeyError. */
  function TimeCode(d: Row): (code: Option<int>)
    ensures code.Some? ==> code.value == 0 || code.value == 1
  {
    if "time" in d && d["time"].Text? && d["time"].s in TimeCodes
    then Some(TimeCodes[d["time"].s])
    else None
  }

  /** The caller's dict once preprocess_input has returned: lines 35-36
      overwrite day_of_week and then time, each only if its lookup succeeded. */
  function Rewritten(d: Row): (r: Row)
    ensures r.Keys == d.Keys
    ensures forall c :: c in d && c != "day_of_week" && c != "time" ==> r[c] == d[c]
  {
    match DayCode(d)
    case None => d
    case Some(day) =>
      var d1 := d["day_of_week" := Int(day)];
      match TimeCode(d)
      case None => d1
      case Some(t) => d1["time" := Int(t)]
  }

  /** The one-row frame `pd.get_dummies(pd.DataFrame([d]), columns=['category', 'time'])`
      builds (app.py:38-39) from the rewritten dict: the category and time
      columns are replaced by one indicator column each, named after the value.
      The time value is already the integer code, so its column is time_0 or time_1. */
  function OneHotFrame(d: Row): (r: Row)
    requires "category" in d && d["category"].Text?
    requires "time" in d && d["time"].Int? && d["time"].i >= 0
    ensures "category" !in r && "time" !in r
    ensures DummyName("category", d["category"].s) in r && r[DummyName("category", d["category"].s)] == Int(1)
    ensures DummyName("time", NatToString(d["time"].i)) in r && r[DummyName("time", NatToString(d["time"].i))] == Int(1)
  {
    DummyNameHead("category", d["category"].s);
    DummyNameHead("time", NatToString(d["time"].i));
    assert DummyName("category", d["category"].s)[0] == 'c';
    assert DummyName("time", NatToString(d["time"].i))[0] == 't';
    (d - {"category", "time"})
      + map[DummyName("category", d["category"].s) := Int(1)]
      + map[DummyName("time", NatToString(d["time"].i)) := Int(1)]
  }

  /** The frame after the loop of app.py:47-49: every listed column that is
      missing is added with the value 0. */
  function ZeroFilled(frame: Row, columns: seq<string>): (r: Row)
    ensures r.Keys == frame.Keys + set c | c in columns
  {
    frame + map c | c in columns && c !in frame :: Int(0)
  }

  /** `frame[columns]` (app.py:51): the values of the listed columns, in that order. */
  function Select(frame: Row, columns: seq<string>): (x: seq<Cell>)
    requires forall c :: c in columns ==> c in frame
    ensures |x| == |columns|
    ensures forall i :: 0 <= i < |columns| ==> x[i] == frame[columns[i]]
  {
    seq(|columns|, i requires 0 <= i < |columns| => frame[columns[i]])
  }

  /** What preprocess_input returns for the dict d: None wherever its body
      raises (an unknown day or time token, a missing category key), otherwise
      the schema vector written slot by slot. FrameIsSlotVector proves it is
      the row the frame operations of lines 35-51 build, and the method
      App.FitnessAttendancePredictor.PreprocessInput runs those operations. */
  function Encode(d: Row): (r: Option<seq<Cell>>)
    requires Admissible(d)
    ensures r.Some? <==> DayCode(d).Some? && TimeCode(d).Some? && "category" in d
    ensures r.Some? ==> |r.value| == |ExpectedColumns| && r.value[9] == Int(0)
  {
    if DayCode(d).None? || TimeCode(d).None? || "category" !in d then None
    else Some(SlotVector(d, DayCode(d).value, d["category"].s))
  }

  /** A value of the dict, or the 0 the fill loop puts in its place when the key is absent. */
  function FieldOrZero(d: Row, key: string): (c: Cell)
  {
    if key in d then d[key] else Int(0)
  }

  /** The encoded vector written out slot by slot, independently of the
      frame operations: three copied numbers, the day code, one indicator per
      schema category, and time_PM, which no column of the one-hot frame fills. */
  function SlotVector(d: Row, day: int, category: string): (x: seq<Cell>)
    ensures |x| == |ExpectedColumns|
  {
    [ FieldOrZero(d, "months_as_member"), FieldOrZero(d, "weight"), FieldOrZero(d, "days_before"),
      Int(day),
      Indicator(category == "Cycling"), Indicator(category == "HIIT"),
      Indicator(category == "Strength"), Indicator(category == "Yoga"),
      Indicator(category == "unknown"),
      Int(0) ]
  }

  lemma SchemaCategoryColumns()
    ensures forall k :: 0 <= k < 5 ==> ExpectedColumns[4 + k] == DummyName("category", SlotCategories[k])
  {
  }

  /** A schema column of the filled one-hot frame holds 1 if it is the
      category's or the time code's column, and otherwise the dict's value, or
      the 0 the fill loop adds. */
  lemma FilledFrameAt(d2: Row, key: string)
    requires "category" in d2 && d2["category"].Text?
    requires "time" in d2 && d2["time"].Int? && d2["time"].i >= 0
    requires key in ExpectedColumns
    ensures var catName := DummyName("category", d2["category"].s);
            var timeName := DummyName("time", NatToString(d2["time"].i));
            ZeroFilled(OneHotFrame(d2), ExpectedColumns)[key]
              == if key == catName || key == timeName then Int(1) else FieldOrZero(d2, key)
  {
    assert key != "category" && key != "time";
  }

  /** Where the schema's first four columns differ from every dummy column. */
  lemma BaseColumnsAreNotDummies(cat: string, t: nat, i: nat)
    requires i < 4
    ensures ExpectedColumns[i] != DummyName("category", cat)
    ensures ExpectedColumns[i] != DummyName("time", NatToString(t))
  {
    DummyNameHead("category", cat);
    DummyNameHead("time", NatToString(t));
    assert DummyName("category", cat)[0] == 'c';
    assert DummyName("time", NatToString(t))[0] == 't';
  }

  /** The category slots of the schema are never the time code's column, and
      time_PM is neither a category column nor time_0 or time_1. */
  lemma DummySlotsAreDistinct(cat: string, t: int, i: nat)
    requires t == 0 || t == 1
    requires 4 <= i < |ExpectedColumns|
    ensures ExpectedColumns[i] != DummyName("time", NatToString(t))
    ensures i == 9 ==> ExpectedColumns[i] != DummyName("category", cat)
  {
    DummyNameHead("category", cat);
    DummyNameHead("time", NatToString(t));
    assert DummyName("category", cat)[0] == 'c';
    assert DummyName("time", NatToString(t))[0] == 't';
    assert NatToString(t) == [DigitChar(t)];
  }

  /** The dict after lines 35-36, where both lookups succeeded. */
  lemma RewrittenBoth(d: Row)
    requires DayCode(d).Some? && TimeCode(d).Some?
    ensures Rewritten(d) == d["day_of_week" := Int(DayCode(d).value)]["time" := Int(TimeCode(d).value)]
  {
  }

  /** The schema's first four columns of the filled one-hot frame hold the
      dict's three numbers (or 0) and the day code. */
  lemma FrameBaseSlot(d: Row, i: nat)
    requires Admissible(d)
    requires DayCode(d).Some? && TimeCode(d).Some? && "category" in d
    requires i < 4
    ensures ZeroFilled(OneHotFrame(Rewritten(d)), ExpectedColumns)[ExpectedColumns[i]]
              == SlotVector(d, DayCode(d).value, d["category"].s)[i]
  {
    var day, t, cat := DayCode(d).value, TimeCode(d).value, d["category"].s;
    var d2 := Rewritten(d);
    RewrittenBoth(d);
    var key := ExpectedColumns[i];
    FilledFrameAt(d2, key);
    BaseColumnsAreNotDummies(cat, t, i);
    assert key != "time";
    if i == 3 {
      assert SlotVector(d, day, cat)[i] == Int(day);
    } else {
      assert key != "day_of_week";
      assert FieldOrZero(d2, key) == FieldOrZero(d, key);
    }
  }

  /** The schema's six dummy columns of the filled one-hot frame hold the
      category's indicators and, for time_PM, the fill loop's 0. */
  lemma FrameDummySlot(d: Row, i: nat)
    requires Admissible(d)
    requires DayCode(d).Some? && TimeCode(d).Some? && "category" in d
    requires 4 <= i < |ExpectedColumns|
    ensures ZeroFilled(OneHotFrame(Rewritten(d)), ExpectedColumns)[ExpectedColumns[i]]
              == SlotVector(d, DayCode(d).value, d["category"].s)[i]
  {
    var t, cat := TimeCode(d).value, d["category"].s;
    var d2 := Rewritten(d);
    RewrittenBoth(d);
    var key := ExpectedColumns[i];
    FilledFrameAt(d2, key);
    DummySlotsAreDistinct(cat, t, i);
    DummyColumnsAreNotFields(i);
    assert FieldOrZero(d2, key) == Int(0);
    if i < 9 {
      CategorySlotIsIndicator(cat, i);
    }
  }

  /** A category slot of the schema is named after the category exactly
      when the category is that slot's level. */
  lemma CategorySlotIsIndicator(cat: string, i: nat)
    requires 4 <= i < 9
    ensures ExpectedColumns[i] == DummyName("category", cat) <==> cat == SlotCategories[i - 4]
  {
    SchemaCategoryColumns();
    DummyNameInjective("category", cat, SlotCategories[i - 4]);
  }

  /** No dummy column of the schema is a key of the input dict. */
  lemma DummyColumnsAreNotFields(i: nat)
    requires 4 <= i < |ExpectedColumns|
    ensures ExpectedColumns[i] !in FormFields
  {
    var key := ExpectedColumns[i];
    assert (key[0] == 'c' || key[0] == 't') && |key| != 8 && |key| != 4;
    assert forall f :: f in FormFields ==> (f[0] != 'c' && f[0] != 't') || |f| == 8 || |f| == 4;
  }

  /** The frame pipeline and the slot-by-slot vector agree: projecting the
      filled one-hot frame of the rewritten dict onto the schema gives
      SlotVector. */
  lemma FrameIsSlotVector(d: Row)
    requires Admissible(d)
    requires DayCode(d).Some? && TimeCode(d).Some? && "category" in d
    ensures Select(ZeroFilled(OneHotFrame(Rewritten(d)), ExpectedColumns), ExpectedColumns)
              == SlotVector(d, DayCode(d).value, d["category"].s)
  {
    var frame := ZeroFilled(OneHotFrame(Rewritten(d)), ExpectedColumns);
    var x := Select(frame, ExpectedColumns);
    var w := SlotVector(d, DayCode(d).value, d["category"].s);
    forall i | 0 <= i < |ExpectedColumns|
      ensures x[i] == w[i]
    {
      if i < 4 {
        FrameBaseSlot(d, i);
      } else {
        FrameDummySlot(d, i);
      }
    }
  }

  /** The category slots one-hot encode the category against the schema's
      five levels: each slot is 0 or 1, a slot is 1 exactly when the category
      is its level, so at most one is 1, and a category outside the five
      (Aqua, or any other string) leaves all five at 0. */
  lemma CategorySlotsOneHot(d: Row)
    requires Admissible(d) && Encode(d).Some?
    ensures var x := Encode(d).value;
            forall k :: 4 <= k < 9 ==> (x[k] == Int(0) || x[k] == Int(1))
    ensures var x := Encode(d).value;
            forall k :: 4 <= k < 9 ==> (x[k] == Int(1) <==> d["category"] == Text(SlotCategories[k - 4]))
    ensures var x := Encode(d).value;
            forall j, k :: 4 <= j < k < 9 ==> x[j] == Int(0) || x[k] == Int(0)
    ensures d["category"].s !in SlotCategories ==>
              forall k :: 4 <= k < 9 ==> Encode(d).value[k] == Int(0)
  {
  }

  /** time_PM is 0 whatever the time token: the time column is encoded after
      its AM/PM token became the integer 0 or 1, so get_dummies makes time_0 or
      time_1, which the projection drops, and the fill loop adds time_PM as 0. */
  lemma TimePMIsAlwaysZero(d: Row)
    requires Admissible(d) && Encode(d).Some?
    ensures Encode(d).value[9] == Int(0)
    ensures TimeCode(d) == Some(1) ==>
              DummyName("time", "1") in OneHotFrame(Rewritten(d)) &&
              "time_PM" !in OneHotFrame(Rewritten(d))
  {
    if TimeCode(d) == Some(1) {
      var d2 := Rewritten(d);
      RewrittenBoth(d);
      assert NatToString(1) == "1";
      DummyNameHead("category", d["category"].s);
      assert DummyName("category", d["category"].s)[0] == 'c';
      assert DummyName("time", "1") == "time_1";
    }
  }

  /** Because time_PM is always 0, the time token affects only whether the
      encoding succeeds: with AM or with PM the vector is the same. */
  lemma TimeTokenDoesNotReachVector(d: Row)
    requires Admissible(d)
    ensures Encode(d["time" := Text("AM")]) == Encode(d["time" := Text("PM")])
  {
    var am, pm := d["time" := Text("AM")], d["time" := Text("PM")];
    if Encode(am).Some? {
      assert FieldOrZero(am, "months_as_member") == FieldOrZero(pm, "months_as_member");
      assert FieldOrZero(am, "weight") == FieldOrZero(pm, "weight");
      assert FieldOrZero(am, "days_before") == FieldOrZero(pm, "days_before");
    }
  }

  /** The three numeric fields are copied into slots 0 to 2 as given, with no
      range check (a negative number goes through), and a missing one becomes
      0; slot 3 is the day code from Mon = 1 to Sun = 7. */
  lemma LeadingSlots(d: Row)
    requires Admissible(d) && Encode(d).Some?
    ensures Encode(d).value[0] == FieldOrZero(d, "months_as_member")
    ensures Encode(d).value[1] == FieldOrZero(d, "weight")
    ensures Encode(d).value[2] == FieldOrZero(d, "days_before")
    ensures Encode(d).value[3] == Int(DayCode(d).value)
  {
  }

  /** The failure paths of lines 35-36 and what they leave in the caller's
      dict: an unknown day leaves it untouched; a known day with an unknown
      time has already overwritten day_of_week; a missing category key fails
      after both overwrites. */
  lemma FailuresAndWrites(d: Row)
    requires Admissible(d)
    ensures DayCode(d).None? ==> Encode(d).None? && Rewritten(d) == d
    ensures DayCode(d).Some? && TimeCode(d).None? ==>
              Encode(d).None? && Rewritten(d) == d["day_of_week" := Int(DayCode(d).value)]
    ensures "category" !in d ==> Encode(d).None?
    ensures Rewritten(d).Keys == d.Keys
  {
  }

  /** After a successful call the dict holds codes, not tokens, so calling
      preprocess_input again on the same dict fails at the day lookup. */
  lemma SecondCallFails(d: Row)
    requires Admissible(d) && Encode(d).Some?
    ensures Admissible(Rewritten(d))
    ensures Encode(Rewritten(d)).None?
  {
    RewrittenBoth(d);
  }

  /** A booking of a 12-month member weighing 70 kg, booked 7 days ahead for a
      Wednesday PM HIIT class, encodes with HIIT set and time_PM at 0. */
  lemma EncodeExample()
    ensures var d := map["months_as_member" := Int(12), "weight" := Real(70.0), "days_before" := Int(7),
                         "day_of_week" := Text("Wed"), "time" := Text("PM"), "category" := Text("HIIT")];
            Admissible(d) &&
            Encode(d) == Some([Int(12), Real(70.0), Int(7), Int(3), Int(0), Int(1), Int(0), Int(0), Int(0), Int(0)])
  {
    var d := map["months_as_member" := Int(12), "weight" := Real(70.0), "days_before" := Int(7),
                 "day_of_week" := Text("Wed"), "time" := Text("PM"), "category" := Text("HIIT")];
  }
}
