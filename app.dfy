/** The predictor class of app.py: preprocess_input, which encodes the
    caller's dict in place, and predict_attendance, which guards on the loaded
    model and calls it. The classifier is opaque. */
module App {
  import opened Common
  import opened Inference

  /** The trained classifier as two opaque calls on a one-row frame:
      `predict` gives one label per row and `predictProba` one row of class
      probabilities per row. None stands for a call that raised. */
  datatype Model = Model(
    predict: seq<Cell> -> Option<seq<int>>,
    predictProba: seq<Cell> -> Option<seq<seq<real>>>)

  /** The pair predict_attendance returns when it does not return (None, None). */
  datatype Prediction = Prediction(classLabel: int, probability: real)

  /** The caller's dict, which preprocess_input updates in place. */
  class InputDict {
    var entries: Row

    constructor (entries: Row)
      ensures this.entries == entries
    {
      this.entries := entries;
    }
  }

  /** What predict_attendance returns for the dict d: None for (None, None)
      when no model is loaded, when preprocessing fails, or when a model call
      raises (including the IndexError of `[0]` on an empty answer or of `[1]`
      on a probability row with fewer than two classes). */
  function Predicted(model: Option<Model>, d: Row): (r: Option<Prediction>)
    requires Admissible(d)
    ensures r.Some? ==> model.Some? && Encode(d).Some?
  {
    if model.None? then None
    else
      match Encode(d)
      case None => None
      case Some(x) =>
        match (model.value.predict(x), model.value.predictProba(x))
        case (Some(labels), Some(rows)) =>
          if |rows| > 0 && |rows[0]| > 1 && |labels| > 0
          then Some(Prediction(labels[0], rows[0][1]))
          else None
        case _ => None
  }

  /** The loop of app.py:47-49 on a one-row frame: every listed column the
      frame lacks is added with the value 0, and no existing column changes. */
  method AddMissingColumns(frame: Row, columns: seq<string>) returns (filled: Row)
    ensures filled.Keys == frame.Keys + set c | c in columns
    ensures forall c :: c in frame ==> filled[c] == frame[c]
    ensures forall c :: c in filled && c !in frame ==> filled[c] == Int(0)
  {
    filled := frame;
    for i := 0 to |columns|
      invariant filled.Keys == frame.Keys + set c | c in columns[..i]
      invariant forall c :: c in frame ==> filled[c] == frame[c]
      invariant forall c :: c in filled && c !in frame ==> filled[c] == Int(0)
    {
      if columns[i] !in filled {
        filled := filled[columns[i] := Int(0)];
      }
      assert columns[..i + 1] == columns[..i] + [columns[i]];
    }
    assert columns[..|columns|] == columns;
  }

  /** The class of app.py:15. Its model is loaded once by the constructor
      (app.py:16-28) and never reassigned; None stands for a failed load. */
  class FitnessAttendancePredictor {
    const model: Option<Model>

    constructor (loaded: Option<Model>)
      ensures model == loaded
    {
      model := loaded;
    }

    /** app.py:30-54: overwrites day_of_week and time in the caller's dict
        with their codes, then one-hot encodes, zero-fills and projects onto
        the schema; any exception makes it return None. */
    method PreprocessInput(input: InputDict) returns (x: Option<seq<Cell>>)
      requires Admissible(input.entries)
      modifies input
      ensures x == Encode(old(input.entries))
      ensures input.entries == Rewritten(old(input.entries))
    {
      var entries := input.entries;
      if !("day_of_week" in entries && entries["day_of_week"].Text? && entries["day_of_week"].s in DayOfWeekCodes) {
        return None;
      }
      input.entries := entries["day_of_week" := Int(DayOfWeekCodes[entries["day_of_week"].s])];
      if !("time" in entries && entries["time"].Text? && entries["time"].s in TimeCodes) {
        return None;
      }
      input.entries := input.entries["time" := Int(TimeCodes[entries["time"].s])];
      if "category" !in input.entries {
        return None;
      }
      var frame := OneHotFrame(input.entries);
      var filled := AddMissingColumns(frame, ExpectedColumns);
      assert filled == ZeroFilled(frame, ExpectedColumns);
      x := Some(Select(filled, ExpectedColumns));
      RewrittenBoth(entries);
      FrameIsSlotVector(entries);
    }

    /** app.py:112-126: no model means no preprocessing; otherwise the dict
        is preprocessed and the model's first label and the class-1
        probability of the first row are returned. */
    method PredictAttendance(input: InputDict) returns (p: Option<Prediction>)
      requires Admissible(input.entries)
      modifies input
      ensures p == Predicted(model, old(input.entries))
      ensures input.entries == if model.None? then old(input.entries) else Rewritten(old(input.entries))
    {
      if model.None? {
        return None;
      }
      var x := PreprocessInput(input);
      if x.None? {
        return None;
      }
      var labels := model.value.predict(x.value);
      var rows := model.value.predictProba(x.value);
      if labels.None? || rows.None? || |rows.value| == 0 || |rows.value[0]| < 2 || |labels.value| == 0 {
        return None;
      }
      p := Some(Prediction(labels.value[0], rows.value[0][1]));
    }
  }

  /** The three early exits of predict_attendance, and what it returns
      otherwise: a prediction comes only from successful calls on the
      slot-by-slot vector of the dict, and successful calls that answer at
      least one label and two class probabilities always give one. */
  lemma PredictionPaths(model: Option<Model>, d: Row)
    requires Admissible(d)
    ensures model.None? ==> Predicted(model, d).None?
    ensures Encode(d).None? ==> Predicted(model, d).None?
    ensures Predicted(model, d).Some? ==>
              var x := SlotVector(d, DayCode(d).value, d["category"].s);
              && model.Some? && DayCode(d).Some? && TimeCode(d).Some? && "category" in d
              && model.value.predict(x).Some? && |model.value.predict(x).value| > 0
              && model.value.predictProba(x).Some? && |model.value.predictProba(x).value| > 0
              && |model.value.predictProba(x).value[0]| > 1
              && Predicted(model, d).value.classLabel == model.value.predict(x).value[0]
              && Predicted(model, d).value.probability == model.value.predictProba(x).value[0][1]
    ensures model.Some? && Encode(d).Some? ==>
              var x := Encode(d).value;
              var labels := model.value.predict(x);
              var rows := model.value.predictProba(x);
              labels.Some? && |labels.value| > 0 && rows.Some? && |rows.value| > 0 && |rows.value[0]| > 1 ==>
                Predicted(model, d) == Some(Prediction(labels.value[0], rows.value[0][1]))
  {
  }

  /** Whatever the classifier, AM and PM bookings get the same prediction,
      since time_PM is always 0. */
  lemma TimeDoesNotChangePrediction(model: Option<Model>, d: Row)
    requires Admissible(d)
    ensures Predicted(model, d["time" := Text("AM")]) == Predicted(model, d["time" := Text("PM")])
  {
    TimeTokenDoesNotReachVector(d);
  }

  /** Whatever the classifier, two categories without a schema slot (Aqua,
      or any other string) get the same prediction. */
  lemma UnslottedCategoriesPredictAlike(model: Option<Model>, d: Row, c1: string, c2: string)
    requires Admissible(d)
    requires c1 !in SlotCategories && c2 !in SlotCategories
    ensures Predicted(model, d["category" := Text(c1)]) == Predicted(model, d["category" := Text(c2)])
  {
    var d1, d2 := d["category" := Text(c1)], d["category" := Text(c2)];
    if Encode(d1).Some? {
      assert FieldOrZero(d1, "months_as_member") == FieldOrZero(d2, "months_as_member");
      assert FieldOrZero(d1, "weight") == FieldOrZero(d2, "weight");
      assert FieldOrZero(d1, "days_before") == FieldOrZero(d2, "days_before");
      assert Encode(d1) == Encode(d2);
    }
  }
}
