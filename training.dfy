/** The training-time preprocessing of scripts/data_preprocessing.py:
    clean_data and feature_engineering update the frame in place,
    encode_categorical_variables builds a new frame with drop_first one-hot
    columns, and preprocess_data chains them. */
module Training {
  import opened Common
  import opened Strings

  const Int64Min: int := -0x8000_0000_0000_0000
  const Int64Max: int := 0x7FFF_FFFF_FFFF_FFFF

  // ---------------------------------------------------------------------
  // Per-cell transforms of clean_data
  // ---------------------------------------------------------------------

  const DaysSuffix: string := " days"

  /** `s.replace(" days", "")`: one left-to-right pass that removes every
      non-overlapping occurrence of " days". */
  function StripDays(s: string): (r: string)
    ensures |r| <= |s|
    decreases |s|
  {
    if |s| < |DaysSuffix| then s
    else if s[..|DaysSuffix|] == DaysSuffix then StripDays(s[|DaysSuffix|..])
    else [s[0]] + StripDays(s[1..])
  }

  /** No occurrence of " days" starts inside a text without spaces, so such a
      prefix passes through the removal unchanged. */
  lemma {:induction false} StripDaysKeepsSpacelessPrefix(a: string, b: string)
    requires ' ' !in a
    ensures StripDays(a + b) == a + StripDays(b)
    decreases |a|
  {
    if a == [] {
      assert a + b == b;
    } else {
      var s := a + b;
      if |s| < |DaysSuffix| {
        assert StripDays(b) == b;
      } else {
        assert s[..|DaysSuffix|] != DaysSuffix by {
          assert s[0] == a[0];
          assert a[0] in a;
        }
        assert StripDays(s) == [s[0]] + StripDays(s[1..]);
        assert s[1..] == a[1..] + b;
        assert ' ' !in a[1..] by {
          assert forall y :: y in a[1..] ==> y in a;
        }
        StripDaysKeepsSpacelessPrefix(a[1..], b);
        assert [a[0]] + a[1..] == a;
      }
    }
  }

  /** An optional sign followed by one or more decimal digits. */
  predicate IsIntLiteral(s: string)
  {
    var digits := if |s| > 0 && (s[0] == '-' || s[0] == '+') then s[1..] else s;
    digits != [] && AllDigits(digits)
  }

  /** `int(s)` as astype(int) applies it to a string: a literal converts, and
      its value must fit in 64 bits; anything else raises. */
  function ParseInt(s: string): (r: Result<int, Failure>)
    ensures r.Ok? ==> IsIntLiteral(s) && Int64Min <= r.value <= Int64Max
    ensures !IsIntLiteral(s) ==> r == Err(ValueError)
    ensures r.Err? ==> r.error == ValueError || r.error == OverflowError
  {
    var digits := if |s| > 0 && (s[0] == '-' || s[0] == '+') then s[1..] else s;
    if digits == [] || !AllDigits(digits) then Err(ValueError)
    else
      var v: int := if s[0] == '-' then -(DigitsValue(digits) as int) else DigitsValue(digits);
      if Int64Min <= v <= Int64Max then Ok(v) else Err(OverflowError)
  }

  /** Parsing inverts printing for every number astype(int) can hold, down
      to -2^63, and the one magnitude past the positive end overflows. */
  lemma ParseIntOfPrinted(n: nat)
    requires n <= Int64Max + 1
    ensures n <= Int64Max ==> ParseInt(NatToString(n)) == Ok(n)
    ensures n == Int64Max + 1 ==> ParseInt(NatToString(n)) == Err(OverflowError)
    ensures ParseInt("-" + NatToString(n)) == Ok(-(n as int))
  {
    var s := NatToString(n);
    DigitsValueOfNatToString(n);
    assert IsDigit(s[0]);
    assert ("-" + s)[1..] == s;
  }

  /** Line 19 on one cell: " days" removed, then int(). A cell that is not a
      string (a missing value included) makes the conversion raise. */
  function DaysBefore(c: Cell): (r: Result<int, Failure>)
    ensures r.Ok? ==> c.Text? && IsIntLiteral(StripDays(c.s))
    ensures r.Err? ==> r.error == ValueError || r.error == OverflowError
  {
    match c
    case Text(s) => ParseInt(StripDays(s))
    case _ => Err(ValueError)
  }

  /** "8 days" reads as 8, and "12" as 12: the count is recovered with or
      without the suffix. */
  lemma DaysBeforeReadsCount(n: nat)
    requires n <= Int64Max
    ensures DaysBefore(Text(NatToString(n) + DaysSuffix)) == Ok(n)
    ensures DaysBefore(Text(NatToString(n))) == Ok(n)
  {
    var s := NatToString(n);
    NoSpaceInDigits(s);
    StripDaysKeepsSpacelessPrefix(s, DaysSuffix);
    assert StripDays(DaysSuffix) == [];
    StripDaysKeepsSpacelessPrefix(s, []);
    assert s + [] == s;
    ParseIntOfPrinted(n);
  }

  /** The day lookup of scripts/data_preprocessing.py:23. */
  const DayCodes: map<string, int> :=
    map["Mon" := 1, "Tue" := 2, "Wed" := 3, "Thu" := 4, "Fri" := 5, "Sat" := 6, "Sun" := 7]

  /** Lines 22-24 on one cell: the first three characters (the whole string
      when shorter) are looked up; an unknown prefix, or a cell that is not a
      string, becomes a missing value instead of raising. */
  function WeekdayCode(c: Cell): (r: Cell)
    ensures r == NaN || (r.Int? && 1 <= r.i <= 7)
  {
    match c
    case Text(s) =>
      var prefix := if |s| <= 3 then s else s[..3];
      if prefix in DayCodes then Int(DayCodes[prefix]) else NaN
    case _ => NaN
  }

  /** A day name is coded by its first three letters: "Wednesday" is 3, as "Wed" is. */
  lemma WeekdayCodeReadsPrefix(s: string)
    requires |s| >= 3
    ensures WeekdayCode(Text(s)) == WeekdayCode(Text(s[..3]))
    ensures s[..3] in DayCodes ==> WeekdayCode(Text(s)) == Int(DayCodes[s[..3]])
    ensures s[..3] !in DayCodes ==> WeekdayCode(Text(s)) == NaN
  {
    assert s[..3][..3] == s[..3];
    if |s| == 3 {
      assert s[..3] == s;
    }
  }

  lemma WeekdayCodeExample()
    ensures WeekdayCode(Text("Wednesday")) == Int(3)
  {
    WeekdayCodeReadsPrefix("Wednesday");
    assert "Wednesday"[..3] == "Wed";
  }

  /** Line 27 on one cell: the value "-" becomes "unknown", every other value is kept. */
  function CleanCategory(c: Cell): (r: Cell)
    ensures r != Text("-")
    ensures c != Text("-") ==> r == c
    ensures c == Text("-") ==> r == Text("unknown")
  {
    if c == Text("-") then Text("unknown") else c
  }

  // ---------------------------------------------------------------------
  // Frames
  // ---------------------------------------------------------------------

  /** A pandas frame as a value: its column names in order and its rows. */
  datatype Table = Table(columns: seq<string>, rows: seq<Row>)

  predicate Distinct(names: seq<string>)
  {
    forall i, j :: 0 <= i < j < |names| ==> names[i] != names[j]
  }

  /** Every row has exactly the frame's columns, and no column name repeats. */
  predicate Rectangular(t: Table)
  {
    Distinct(t.columns) && forall k :: 0 <= k < |t.rows| ==> t.rows[k].Keys == set c | c in t.columns
  }

  /** `df[name]`: the column's cells, row by row. */
  function Column(rows: seq<Row>, name: string): (cells: seq<Cell>)
    requires forall k :: 0 <= k < |rows| ==> name in rows[k]
    ensures |cells| == |rows|
    ensures forall k :: 0 <= k < |rows| ==> cells[k] == rows[k][name]
  {
    seq(|rows|, k requires 0 <= k < |rows| => rows[k][name])
  }

  /** The rows after `df[name] = cells`. */
  function WithColumn(rows: seq<Row>, name: string, cells: seq<Cell>): (r: seq<Row>)
    requires |cells| == |rows|
    ensures |r| == |rows|
    ensures forall k :: 0 <= k < |rows| ==> r[k] == rows[k][name := cells[k]]
  {
    seq(|rows|, k requires 0 <= k < |rows| => rows[k][name := cells[k]])
  }

  /** A whole-column transform such as `df[name].map(...)`. */
  function Mapped(cells: seq<Cell>, f: Cell -> Cell): (r: seq<Cell>)
    ensures |r| == |cells|
    ensures forall k :: 0 <= k < |cells| ==> r[k] == f(cells[k])
  {
    seq(|cells|, k requires 0 <= k < |cells| => f(cells[k]))
  }

  /** The column names after `df[name] = ...`: a new name is appended. */
  function WithName(columns: seq<string>, name: string): (r: seq<string>)
    ensures (set c | c in r) == (set c | c in columns) + {name}
  {
    if name in columns then columns else columns + [name]
  }

  lemma WithColumnKeepsRectangular(t: Table, name: string, cells: seq<Cell>)
    requires Rectangular(t) && |cells| == |t.rows|
    ensures Rectangular(Table(WithName(t.columns, name), WithColumn(t.rows, name, cells)))
  {
    var cols := WithName(t.columns, name);
    if name !in t.columns {
      forall i, j | 0 <= i < j < |cols|
        ensures cols[i] != cols[j]
      {
        if j == |t.columns| {
          assert cols[i] in t.columns;
        }
      }
    }
  }

  /** A converted head in front of a converted tail converts the whole column. */
  lemma ConvertedCons(cells: seq<Cell>, n: int, rest: seq<Cell>)
    requires cells != [] && DaysBefore(cells[0]) == Ok(n) && |rest| == |cells| - 1
    requires forall k :: 0 <= k < |rest| ==>
               DaysBefore(cells[1..][k]).Ok? && rest[k] == Int(DaysBefore(cells[1..][k]).value)
    ensures forall k :: 0 <= k < |cells| ==>
              DaysBefore(cells[k]).Ok? && ([Int(n)] + rest)[k] == Int(DaysBefore(cells[k]).value)
  {
    forall k | 0 <= k < |cells|
      ensures DaysBefore(cells[k]).Ok? && ([Int(n)] + rest)[k] == Int(DaysBefore(cells[k]).value)
    {
      if k > 0 {
        assert cells[k] == cells[1..][k - 1];
      }
    }
  }

  /** The first failing cell of the tail, behind a converting head, is the
      first failing cell of the whole column. */
  lemma FirstFailureCons(cells: seq<Cell>, e: Failure, k: nat)
    requires cells != [] && DaysBefore(cells[0]).Ok? && k < |cells| - 1
    requires DaysBefore(cells[1..][k]) == Err(e)
    requires forall j :: 0 <= j < k ==> DaysBefore(cells[1..][j]).Ok?
    ensures DaysBefore(cells[k + 1]) == Err(e)
    ensures forall j :: 0 <= j < k + 1 ==> DaysBefore(cells[j]).Ok?
  {
    assert cells[k + 1] == cells[1..][k];
    forall j | 0 < j < k + 1
      ensures DaysBefore(cells[j]).Ok?
    {
      assert cells[j] == cells[1..][j - 1];
    }
  }

  /** The converted days_before column of line 19: the first cell that does
      not convert makes the whole conversion raise, so nothing is assigned. */
  function ParseDaysColumn(cells: seq<Cell>): (r: Result<seq<Cell>, Failure>)
    ensures r.Ok? ==>
              |r.value| == |cells| &&
              forall k :: 0 <= k < |cells| ==> DaysBefore(cells[k]).Ok? && r.value[k] == Int(DaysBefore(cells[k]).value)
    ensures r.Err? ==>
              exists k :: 0 <= k < |cells| && DaysBefore(cells[k]) == Err(r.error) &&
                          forall j :: 0 <= j < k ==> DaysBefore(cells[j]).Ok?
    decreases |cells|
  {
    if cells == [] then Ok([])
    else
      match DaysBefore(cells[0])
      case Err(e) => Err(e)
      case Ok(n) =>
        match ParseDaysColumn(cells[1..])
        case Err(e) =>
          ghost var k :| 0 <= k < |cells[1..]| && DaysBefore(cells[1..][k]) == Err(e) &&
                         forall j :: 0 <= j < k ==> DaysBefore(cells[1..][j]).Ok?;
          FirstFailureCons(cells, e, k);
          Err(e)
        case Ok(rest) =>
          ConvertedCons(cells, n, rest);
          Ok([Int(n)] + rest)
  }

  /** Whether pandas lets the `.str` accessor of lines 19 and 22 be used on
      a column: a column with cells of which none is a string (integers,
      floats, or only missing values) makes it raise AttributeError. */
  predicate StrAccessorAccepts(cells: seq<Cell>)
  {
    cells == [] || HasText(cells)
  }

  /** Some cell of the column is a string. */
  predicate HasText(cells: seq<Cell>)
    decreases |cells|
  {
    cells != [] && (cells[0].Text? || HasText(cells[1..]))
  }

  /** Line 16 on one cell: a missing weight takes the column mean; any
      other value is kept. */
  function FillWeight(c: Cell, mean: Cell): (r: Cell)
  {
    if c == NaN then mean else c
  }

  /** Line 16 over the whole column: `fillna(mean)`, where `mean` is what
      `df['weight'].mean()` gives for these cells. */
  function FilledWeights(cells: seq<Cell>, weightMean: seq<Cell> -> Cell): (r: seq<Cell>)
    ensures |r| == |cells|
    ensures forall k :: 0 <= k < |cells| && cells[k] != NaN ==> r[k] == cells[k]
    ensures forall k :: 0 <= k < |cells| && cells[k] == NaN ==> r[k] == weightMean(cells)
    ensures weightMean(cells) != NaN ==> forall k :: 0 <= k < |r| ==> r[k] != NaN
  {
    Mapped(cells, c => FillWeight(c, weightMean(cells)))
  }

  /** What clean_data (lines 11-29) signals and the rows it leaves in the
      frame. Each step reads its column first, so a missing column raises
      KeyError after the earlier steps have already been assigned; then the
      `.str` accessor of lines 19 and 22 may raise AttributeError. The
      floating-point mean is the parameter `weightMean`. */
  function Cleaned(t: Table, weightMean: seq<Cell> -> Cell): (r: (Result<(), Failure>, seq<Row>))
    requires Rectangular(t)
    ensures |r.1| == |t.rows|
    ensures r.0.Err? && r.0.error.KeyError? ==> r.0.error.key in CleanedColumns && r.0.error.key !in t.columns
  {
    if "weight" !in t.columns then (Err(KeyError("weight")), t.rows)
    else
      var rows0 := WithColumn(t.rows, "weight", FilledWeights(Column(t.rows, "weight"), weightMean));
      if "days_before" !in t.columns then (Err(KeyError("days_before")), rows0)
      else if !StrAccessorAccepts(Column(rows0, "days_before")) then (Err(AttributeError), rows0)
      else
        match ParseDaysColumn(Column(rows0, "days_before"))
        case Err(e) => (Err(e), rows0)
        case Ok(days) =>
          var rows1 := WithColumn(rows0, "days_before", days);
          if "day_of_week" !in t.columns then (Err(KeyError("day_of_week")), rows1)
          else if !StrAccessorAccepts(Column(rows1, "day_of_week")) then (Err(AttributeError), rows1)
          else
            var rows2 := WithColumn(rows1, "day_of_week", Mapped(Column(rows1, "day_of_week"), WeekdayCode));
            if "category" !in t.columns then (Err(KeyError("category")), rows2)
            else (Ok(()), WithColumn(rows2, "category", Mapped(Column(rows2, "category"), CleanCategory)))
  }

  /** One row as clean_data leaves it when it completes, given the weight mean. */
  function CleanRow(row: Row, mean: Cell): (r: Row)
    requires "weight" in row && "days_before" in row && "day_of_week" in row && "category" in row
    requires DaysBefore(row["days_before"]).Ok?
    ensures r.Keys == row.Keys
    ensures forall c :: c in row && c !in CleanedColumns ==> r[c] == row[c]
    ensures r["days_before"].Int? && r["category"] != Text("-")
  {
    row["weight" := FillWeight(row["weight"], mean)]
       ["days_before" := Int(DaysBefore(row["days_before"]).value)]
       ["day_of_week" := WeekdayCode(row["day_of_week"])]
       ["category" := CleanCategory(row["category"])]
  }

  /** clean_data succeeds exactly when the four columns it reads exist,
      every days_before cell converts, and the day_of_week column lets `.str`
      be used on it. */
  lemma CleanedSucceedsWhen(t: Table, weightMean: seq<Cell> -> Cell)
    requires Rectangular(t)
    ensures Cleaned(t, weightMean).0.Ok? <==>
              && "weight" in t.columns && "days_before" in t.columns
              && "day_of_week" in t.columns && "category" in t.columns
              && (forall k :: 0 <= k < |t.rows| ==> DaysBefore(t.rows[k]["days_before"]).Ok?)
              && StrAccessorAccepts(Column(t.rows, "day_of_week"))
  {
    if "weight" in t.columns && "days_before" in t.columns {
      var rows0 := WithColumn(t.rows, "weight", FilledWeights(Column(t.rows, "weight"), weightMean));
      var cells := Column(rows0, "days_before");
      assert cells == Column(t.rows, "days_before");
      if cells != [] && DaysBefore(cells[0]).Ok? {
        assert cells[0].Text?;
      }
      var parsed := ParseDaysColumn(cells);
      if parsed.Err? {
        var i :| 0 <= i < |cells| && DaysBefore(cells[i]) == Err(parsed.error);
        assert !DaysBefore(t.rows[i]["days_before"]).Ok?;
      } else if "day_of_week" in t.columns {
        var rows1 := WithColumn(rows0, "days_before", parsed.value);
        assert Column(rows1, "day_of_week") == Column(t.rows, "day_of_week");
      }
    }
  }

  /** A frame whose day_of_week column is non-empty and holds no string (for
      instance integer codes already) makes clean_data raise AttributeError at
      line 22, although the columns it reads are present and every days_before
      cell converts. */
  lemma CleanedRaisesOnTextlessWeekdays(t: Table, weightMean: seq<Cell> -> Cell)
    requires Rectangular(t)
    requires "weight" in t.columns && "days_before" in t.columns && "day_of_week" in t.columns
    requires forall k :: 0 <= k < |t.rows| ==> DaysBefore(t.rows[k]["days_before"]).Ok?
    requires Column(t.rows, "day_of_week") != [] && !HasText(Column(t.rows, "day_of_week"))
    ensures Cleaned(t, weightMean).0 == Err(AttributeError)
  {
    var rows0 := WithColumn(t.rows, "weight", FilledWeights(Column(t.rows, "weight"), weightMean));
    var cells := Column(rows0, "days_before");
    assert cells == Column(t.rows, "days_before");
    assert DaysBefore(cells[0]).Ok?;
    assert cells[0].Text?;
    var parsed := ParseDaysColumn(cells);
    assert parsed.Ok?;
    var rows1 := WithColumn(rows0, "days_before", parsed.value);
    assert Column(rows1, "day_of_week") == Column(t.rows, "day_of_week");
  }

  /** The one-row frame {weight: 70.0, days_before: "8", day_of_week: 3,
      category: "HIIT"} is such a frame. */
  lemma CleanedIntegerWeekdaysRaise(weightMean: seq<Cell> -> Cell)
    ensures var t := Table(["weight", "days_before", "day_of_week", "category"],
                           [map["weight" := Real(70.0), "days_before" := Text("8"),
                                "day_of_week" := Int(3), "category" := Text("HIIT")]]);
            Rectangular(t) && Cleaned(t, weightMean).0 == Err(AttributeError)
  {
    var row := map["weight" := Real(70.0), "days_before" := Text("8"),
                   "day_of_week" := Int(3), "category" := Text("HIIT")];
    var t := Table(["weight", "days_before", "day_of_week", "category"], [row]);
    assert row.Keys == set c | c in t.columns;
    assert Rectangular(t);
    assert StripDays("8") == "8";
    assert AllDigits("8") && DigitsValue("8") == 8;
    assert DaysBefore(Text("8")) == Ok(8);
    assert Column(t.rows, "day_of_week") == [Int(3)];
    assert [Int(3)][1..] == [];
    CleanedRaisesOnTextlessWeekdays(t, weightMean);
  }


  /** The rows after the four column assignments of clean_data, given the
      converted days_before column. */
  function CleanStages(rows: seq<Row>, weightMean: seq<Cell> -> Cell, days: seq<Cell>): (r: seq<Row>)
    requires forall k :: 0 <= k < |rows| ==>
               "weight" in rows[k] && "days_before" in rows[k] && "day_of_week" in rows[k] && "category" in rows[k]
    requires |days| == |rows|
  {
    var rows0 := WithColumn(rows, "weight", FilledWeights(Column(rows, "weight"), weightMean));
    var rows1 := WithColumn(rows0, "days_before", days);
    var rows2 := WithColumn(rows1, "day_of_week", Mapped(Column(rows1, "day_of_week"), WeekdayCode));
    WithColumn(rows2, "category", Mapped(Column(rows2, "category"), CleanCategory))
  }

  /** The four column assignments, taken one after another, rewrite each row by CleanRow. */
  lemma CleanStagesRowByRow(rows: seq<Row>, weightMean: seq<Cell> -> Cell, days: seq<Cell>)
    requires forall k :: 0 <= k < |rows| ==>
               "weight" in rows[k] && "days_before" in rows[k] && "day_of_week" in rows[k] && "category" in rows[k]
    requires |days| == |rows|
    requires forall k :: 0 <= k < |rows| ==>
               DaysBefore(rows[k]["days_before"]).Ok? && days[k] == Int(DaysBefore(rows[k]["days_before"]).value)
    ensures |CleanStages(rows, weightMean, days)| == |rows|
    ensures forall k :: 0 <= k < |rows| ==>
              CleanStages(rows, weightMean, days)[k] == CleanRow(rows[k], weightMean(Column(rows, "weight")))
  {
    var mean := weightMean(Column(rows, "weight"));
    var rows0 := WithColumn(rows, "weight", FilledWeights(Column(rows, "weight"), weightMean));
    var rows1 := WithColumn(rows0, "days_before", days);
    var rows2 := WithColumn(rows1, "day_of_week", Mapped(Column(rows1, "day_of_week"), WeekdayCode));
    var rows3 := WithColumn(rows2, "category", Mapped(Column(rows2, "category"), CleanCategory));
    assert rows3 == CleanStages(rows, weightMean, days);
    forall k | 0 <= k < |rows|
      ensures rows3[k] == CleanRow(rows[k], mean)
    {
      assert rows0[k] == rows[k]["weight" := FillWeight(rows[k]["weight"], mean)];
      assert rows1[k] == rows0[k]["days_before" := days[k]];
      assert rows2[k] == rows1[k]["day_of_week" := WeekdayCode(rows[k]["day_of_week"])];
      assert rows3[k] == rows2[k]["category" := CleanCategory(rows[k]["category"])];
    }
  }

  /** When clean_data completes, its rows are those of the four assignments. */
  lemma CleanedIsStages(t: Table, weightMean: seq<Cell> -> Cell)
    requires Rectangular(t)
    requires Cleaned(t, weightMean).0.Ok?
    ensures forall k :: 0 <= k < |t.rows| ==>
              "weight" in t.rows[k] && "days_before" in t.rows[k] && "day_of_week" in t.rows[k] && "category" in t.rows[k]
    ensures ParseDaysColumn(Column(t.rows, "days_before")).Ok?
    ensures Cleaned(t, weightMean).1 == CleanStages(t.rows, weightMean, ParseDaysColumn(Column(t.rows, "days_before")).value)
  {
    var rows0 := WithColumn(t.rows, "weight", FilledWeights(Column(t.rows, "weight"), weightMean));
    assert Column(rows0, "days_before") == Column(t.rows, "days_before");
  }

  /** On success, clean_data has rewritten every row by CleanRow. */
  lemma CleanedRowByRow(t: Table, weightMean: seq<Cell> -> Cell)
    requires Rectangular(t)
    requires Cleaned(t, weightMean).0.Ok?
    ensures |Cleaned(t, weightMean).1| == |t.rows|
    ensures forall k :: 0 <= k < |t.rows| ==>
              Cleaned(t, weightMean).1[k] == CleanRow(t.rows[k], weightMean(Column(t.rows, "weight")))
  {
    CleanedIsStages(t, weightMean);
    CleanStagesRowByRow(t.rows, weightMean, ParseDaysColumn(Column(t.rows, "days_before")).value);
  }

  /** The columns clean_data reassigns. */
  const CleanedColumns: set<string> := {"weight", "days_before", "day_of_week", "category"}

  /** b has a's rows with the same keys, and every cell outside `changed` is as in a. */
  predicate SameShape(a: seq<Row>, b: seq<Row>, changed: set<string>)
  {
    && |a| == |b|
    && (forall k :: 0 <= k < |a| ==> b[k].Keys == a[k].Keys)
    && (forall k, c :: 0 <= k < |a| && c in a[k] && c !in changed ==> b[k][c] == a[k][c])
  }

  /** Assigning a column every row already has changes that column only. */
  lemma WithExistingColumn(rows: seq<Row>, name: string, cells: seq<Cell>, changed: set<string>)
    requires |cells| == |rows| && name in changed
    requires forall k :: 0 <= k < |rows| ==> name in rows[k]
    ensures SameShape(rows, WithColumn(rows, name, cells), changed)
  {
  }

  lemma SameShapeTransitive(a: seq<Row>, b: seq<Row>, c: seq<Row>, changed: set<string>)
    requires SameShape(a, b, changed) && SameShape(b, c, changed)
    ensures SameShape(a, c, changed)
  {
  }

  /** Whatever happens, clean_data keeps the rows and their columns, and
      changes no cell outside weight, days_before, day_of_week and category. */
  lemma CleanedKeepsOtherColumns(t: Table, weightMean: seq<Cell> -> Cell)
    requires Rectangular(t)
    ensures SameShape(t.rows, Cleaned(t, weightMean).1, CleanedColumns)
  {
    var changed := CleanedColumns;
    var result := Cleaned(t, weightMean).1;
    if "weight" !in t.columns {
      assert result == t.rows;
      return;
    }
    var rows0 := WithColumn(t.rows, "weight", FilledWeights(Column(t.rows, "weight"), weightMean));
    WithExistingColumn(t.rows, "weight", FilledWeights(Column(t.rows, "weight"), weightMean), changed);
    if "days_before" !in t.columns || !StrAccessorAccepts(Column(rows0, "days_before"))
       || ParseDaysColumn(Column(rows0, "days_before")).Err? {
      assert result == rows0;
      return;
    }
    var rows1 := WithColumn(rows0, "days_before", ParseDaysColumn(Column(rows0, "days_before")).value);
    WithExistingColumn(rows0, "days_before", ParseDaysColumn(Column(rows0, "days_before")).value, changed);
    SameShapeTransitive(t.rows, rows0, rows1, changed);
    if "day_of_week" !in t.columns || !StrAccessorAccepts(Column(rows1, "day_of_week")) {
      assert result == rows1;
      return;
    }
    var cells2 := Mapped(Column(rows1, "day_of_week"), WeekdayCode);
    var rows2 := WithColumn(rows1, "day_of_week", cells2);
    WithExistingColumn(rows1, "day_of_week", cells2, changed);
    SameShapeTransitive(t.rows, rows1, rows2, changed);
    if "category" !in t.columns {
      assert result == rows2;
      return;
    }
    var cells3 := Mapped(Column(rows2, "category"), CleanCategory);
    WithExistingColumn(rows2, "category", cells3, changed);
    SameShapeTransitive(t.rows, rows2, WithColumn(rows2, "category", cells3), changed);
    assert result == WithColumn(rows2, "category", cells3);
  }

  /** The rows clean_data leaves, even after it raises, still have exactly the frame's columns. */
  lemma CleanedKeepsRectangular(t: Table, weightMean: seq<Cell> -> Cell)
    requires Rectangular(t)
    ensures Rectangular(Table(t.columns, Cleaned(t, weightMean).1))
  {
    CleanedKeepsOtherColumns(t, weightMean);
  }

  /** A DataFrame whose columns are assigned in place. */
  class DataFrame {
    var columns: seq<string>
    var rows: array<Row>

    ghost predicate Valid()
      reads this, rows
    {
      Rectangular(Table(columns, rows[..]))
    }

    function Snapshot(): (t: Table)
      reads this, rows
    {
      Table(columns, rows[..])
    }

    constructor (t: Table)
      requires Rectangular(t)
      ensures Valid() && Snapshot() == t && fresh(rows)
    {
      columns := t.columns;
      rows := new Row[|t.rows|](k requires 0 <= k < |t.rows| => t.rows[k]);
    }

    /** `df[name] = cells`: the column is overwritten, or appended when new. */
    method SetColumn(name: string, cells: seq<Cell>)
      requires Valid() && |cells| == rows.Length
      modifies this, rows
      ensures Valid() && rows == old(rows)
      ensures Snapshot() == Table(WithName(old(columns), name), WithColumn(old(rows[..]), name, cells))
    {
      ghost var before := Snapshot();
      WithColumnKeepsRectangular(before, name, cells);
      for k := 0 to rows.Length
        invariant rows == old(rows) && columns == old(columns) && |before.rows| == rows.Length
        invariant forall j :: 0 <= j < k ==> rows[j] == before.rows[j][name := cells[j]]
        invariant forall j :: k <= j < rows.Length ==> rows[j] == before.rows[j]
      {
        rows[k] := rows[k][name := cells[k]];
      }
      columns := WithName(columns, name);
    }
  }

  /** Line 19 over the whole column: converts every cell or reports the
      exception of the first that does not convert. */
  method ConvertDaysBefore(rows: array<Row>) returns (r: Result<seq<Cell>, Failure>)
    requires forall k :: 0 <= k < rows.Length ==> "days_before" in rows[k]
    ensures r == ParseDaysColumn(Column(rows[..], "days_before"))
  {
    ghost var cells := Column(rows[..], "days_before");
    var out: seq<Cell> := [];
    for k := 0 to rows.Length
      invariant |out| == k
      invariant forall j :: 0 <= j < k ==> DaysBefore(cells[j]).Ok? && out[j] == Int(DaysBefore(cells[j]).value)
    {
      match DaysBefore(rows[k]["days_before"])
      case Err(e) =>
        ghost var spec := ParseDaysColumn(cells);
        if spec.Err? {
          ghost var i :| 0 <= i < |cells| && DaysBefore(cells[i]) == Err(spec.error) &&
                         forall j :: 0 <= j < i ==> DaysBefore(cells[j]).Ok?;
          assert i == k;
        }
        return Err(e);
      case Ok(n) =>
        out := out + [Int(n)];
    }
    ghost var spec := ParseDaysColumn(cells);
    assert spec.Ok?;
    assert spec.value == out;
    r := Ok(out);
  }

  /** clean_data (lines 11-29), in place; `weightMean` is the mean of line 16. */
  method CleanData(df: DataFrame, weightMean: seq<Cell> -> Cell) returns (outcome: Result<(), Failure>)
    requires df.Valid()
    modifies df, df.rows
    ensures df.Valid() && df.rows == old(df.rows) && df.columns == old(df.columns)
    ensures (outcome, df.rows[..]) == Cleaned(old(df.Snapshot()), weightMean)
  {
    if "weight" !in df.columns {
      return Err(KeyError("weight"));
    }
    df.SetColumn("weight", FilledWeights(Column(df.rows[..], "weight"), weightMean));
    if "days_before" !in df.columns {
      return Err(KeyError("days_before"));
    }
    if !StrAccessorAccepts(Column(df.rows[..], "days_before")) {
      return Err(AttributeError);
    }
    var days := ConvertDaysBefore(df.rows);
    if days.Err? {
      return Err(days.error);
    }
    df.SetColumn("days_before", days.value);
    if "day_of_week" !in df.columns {
      return Err(KeyError("day_of_week"));
    }
    if !StrAccessorAccepts(Column(df.rows[..], "day_of_week")) {
      return Err(AttributeError);
    }
    df.SetColumn("day_of_week", Mapped(Column(df.rows[..], "day_of_week"), WeekdayCode));
    if "category" !in df.columns {
      return Err(KeyError("category"));
    }
    df.SetColumn("category", Mapped(Column(df.rows[..], "category"), CleanCategory));
    outcome := Ok(());
  }

  // ---------------------------------------------------------------------
  // feature_engineering
  // ---------------------------------------------------------------------

  const RatioColumn: string := "months_to_days_ratio"

  /** `df['months_as_member'] / df['days_before']`, row by row. */
  function RatioCells(rows: seq<Row>, ratio: (Cell, Cell) -> Cell): (cells: seq<Cell>)
    requires forall k :: 0 <= k < |rows| ==> "months_as_member" in rows[k] && "days_before" in rows[k]
    ensures |cells| == |rows|
  {
    seq(|rows|, k requires 0 <= k < |rows| => ratio(rows[k]["months_as_member"], rows[k]["days_before"]))
  }

  /** feature_engineering (lines 31-38): the ratio column is set to
      `ratio(months_as_member, days_before)` in every row; the division
      itself is the parameter `ratio`. A missing operand column raises KeyError. */
  function Engineered(t: Table, ratio: (Cell, Cell) -> Cell): (r: Result<Table, Failure>)
    requires Rectangular(t)
    ensures r.Ok? ==> Rectangular(r.value)
  {
    if "months_as_member" !in t.columns then Err(KeyError("months_as_member"))
    else if "days_before" !in t.columns then Err(KeyError("days_before"))
    else
      var cells := RatioCells(t.rows, ratio);
      WithColumnKeepsRectangular(t, RatioColumn, cells);
      Ok(Table(WithName(t.columns, RatioColumn), WithColumn(t.rows, RatioColumn, cells)))
  }

  method FeatureEngineering(df: DataFrame, ratio: (Cell, Cell) -> Cell) returns (outcome: Result<(), Failure>)
    requires df.Valid()
    modifies df, df.rows
    ensures df.Valid() && df.rows == old(df.rows)
    ensures var r := Engineered(old(df.Snapshot()), ratio);
            (outcome.Ok? <==> r.Ok?) &&
            (r.Ok? ==> df.Snapshot() == r.value) &&
            (r.Err? ==> outcome == Err(r.error) && df.Snapshot() == old(df.Snapshot()))
  {
    if "months_as_member" !in df.columns {
      return Err(KeyError("months_as_member"));
    }
    if "days_before" !in df.columns {
      return Err(KeyError("days_before"));
    }
    var cells := RatioCells(df.rows[..], ratio);
    df.SetColumn(RatioColumn, cells);
    outcome := Ok(());
  }

  // ---------------------------------------------------------------------
  // encode_categorical_variables
  // ---------------------------------------------------------------------

  /** The levels get_dummies finds in a column: its distinct strings in
      sorted order; a missing value is not a level. */
  function Levels(cells: seq<Cell>): (levels: seq<string>)
    ensures StrictlySorted(levels)
    ensures forall y :: y in levels <==> Text(y) in cells
    decreases |cells|
  {
    if cells == [] then []
    else
      var rest := Levels(cells[1..]);
      assert forall y :: Text(y) in cells <==> Text(y) == cells[0] || Text(y) in cells[1..] by {
        assert cells == [cells[0]] + cells[1..];
      }
      if cells[0].Text? then InsertSorted(rest, cells[0].s) else rest
  }

  /** drop_first=True: the first (smallest) level gets no column; of a
      sorted level list, exactly the levels above the smallest are kept. */
  function Kept(levels: seq<string>): (kept: seq<string>)
    ensures forall y :: y in kept ==> y in levels
    ensures levels != [] && StrictlySorted(levels) ==>
              StrictlySorted(kept) && forall y :: y in kept <==> y in levels && StrLt(levels[0], y)
  {
    if levels == [] then []
    else
      StrLtIrreflexive(levels[0]);
      assert forall y :: y in levels <==> y == levels[0] || y in levels[1..] by {
        assert levels == [levels[0]] + levels[1..];
      }
      assert StrictlySorted(levels) ==> forall y :: y in levels[1..] ==> StrLt(levels[0], y) by {
        if StrictlySorted(levels) {
          forall y | y in levels[1..]
            ensures StrLt(levels[0], y)
          {
            var j :| 0 <= j < |levels[1..]| && levels[1..][j] == y;
            assert levels[j + 1] == y;
          }
        }
      }
      levels[1..]
  }

  /** The dummy column names of the given levels, in order. */
  function DummyColumns(prefix: string, levels: seq<string>): (names: seq<string>)
    ensures |names| == |levels|
    ensures forall i :: 0 <= i < |levels| ==> names[i] == DummyName(prefix, levels[i])
  {
    seq(|levels|, i requires 0 <= i < |levels| => DummyName(prefix, levels[i]))
  }

  /** One row's dummy cells for the value v: each column holds 1 if v is its level. */
  function Indicators(v: Cell, prefix: string, levels: seq<string>): (m: Row)
    ensures m.Keys == set c | c in DummyColumns(prefix, levels)
  {
    map c | c in DummyColumns(prefix, levels) :: Indicator(v == Text(LevelOf(prefix, c)))
  }

  /** a is b with some elements left out, the rest in b's order. */
  predicate SubsequenceOf(a: seq<string>, b: seq<string>)
    decreases |b|
  {
    if b == [] then a == []
    else (a != [] && a[0] == b[0] && SubsequenceOf(a[1..], b[1..])) || SubsequenceOf(a, b[1..])
  }

  /** The column names that are not the two encoded columns, in order. */
  function Unencoded(columns: seq<string>): (r: seq<string>)
    ensures forall c :: c in r <==> c in columns && c != "category" && c != "time"
    ensures Distinct(columns) ==> Distinct(r)
    ensures SubsequenceOf(r, columns)
  {
    if columns == [] then []
    else
      var rest := Unencoded(columns[1..]);
      assert forall c :: c in columns <==> c == columns[0] || c in columns[1..] by {
        assert columns == [columns[0]] + columns[1..];
      }
      assert Distinct(columns) ==> columns[0] !in columns[1..];
      if columns[0] == "category" || columns[0] == "time" then rest
      else
        assert ([columns[0]] + rest)[1..] == rest;
        [columns[0]] + rest
  }

  /** A name get_dummies could give a dummy column of `prefix`. */
  predicate IsDummyOf(prefix: string, name: string)
  {
    |name| > |prefix| && name[..|prefix| + 1] == prefix + "_"
  }

  /** The frames encode_categorical_variables is modelled on: rectangular, no
      existing column shaped like a dummy column, and strings or missing
      values in the two encoded columns, as the CSV gives them. */
  predicate Encodable(t: Table)
  {
    && Rectangular(t)
    && (forall c :: c in t.columns ==> !IsDummyOf("category", c) && !IsDummyOf("time", c))
    && (forall k :: 0 <= k < |t.rows| && "category" in t.rows[k] ==>
          t.rows[k]["category"].Text? || t.rows[k]["category"] == NaN)
    && (forall k :: 0 <= k < |t.rows| && "time" in t.rows[k] ==>
          t.rows[k]["time"].Text? || t.rows[k]["time"] == NaN)
  }

  /** One row after get_dummies: the two encoded cells are replaced by their dummy cells. */
  function EncodedRow(row: Row, categoryKept: seq<string>, timeKept: seq<string>): (r: Row)
    requires "category" in row && "time" in row
    ensures "category" !in r && "time" !in r
  {
    DummyNamesAreNotEncodedColumns("category", categoryKept);
    DummyNamesAreNotEncodedColumns("time", timeKept);
    (row - {"category", "time"})
      + Indicators(row["category"], "category", categoryKept)
      + Indicators(row["time"], "time", timeKept)
  }

  /** No dummy column of category or time is named category or time. */
  lemma DummyNamesAreNotEncodedColumns(prefix: string, levels: seq<string>)
    requires prefix == "category" || prefix == "time"
    ensures forall c :: c in DummyColumns(prefix, levels) ==> c != "category" && c != "time"
  {
    forall c | c in DummyColumns(prefix, levels)
      ensures c != "category" && c != "time"
    {
      var j :| 0 <= j < |levels| && DummyColumns(prefix, levels)[j] == c;
      DummyNameHead(prefix, levels[j]);
      assert c[0] == (prefix + "_")[0] == prefix[0];
    }
  }

  /** encode_categorical_variables (lines 40-45): `pd.get_dummies(df,
      columns=['category', 'time'], drop_first=True)`. The other columns keep
      their order; then come the category dummies and the time dummies, each
      in sorted level order without the first level. */
  function EncodeCategorical(t: Table): (r: Result<Table, Failure>)
    requires Encodable(t)
    ensures r.Ok? <==> "category" in t.columns && "time" in t.columns
    ensures r.Err? ==> r.error == KeyError(if "category" in t.columns then "time" else "category")
    ensures r.Ok? ==> |r.value.rows| == |t.rows| && "category" !in r.value.columns && "time" !in r.value.columns
  {
    if "category" !in t.columns then Err(KeyError("category"))
    else if "time" !in t.columns then Err(KeyError("time"))
    else
      var categoryKept := Kept(Levels(Column(t.rows, "category")));
      var timeKept := Kept(Levels(Column(t.rows, "time")));
      DummyNamesAreNotEncodedColumns("category", categoryKept);
      DummyNamesAreNotEncodedColumns("time", timeKept);
      Ok(Table(
        Unencoded(t.columns) + DummyColumns("category", categoryKept) + DummyColumns("time", timeKept),
        seq(|t.rows|, k requires 0 <= k < |t.rows| => EncodedRow(t.rows[k], categoryKept, timeKept))))
  }

  /** The dummy cells of one value under drop_first: the column of every
      level but the smallest holds 1 exactly when the value is that level; at
      most one cell is 1; and the smallest level, like a missing value, gives
      all zeros. */
  lemma DummiesOneHot(v: Cell, prefix: string, levels: seq<string>)
    requires StrictlySorted(levels)
    ensures forall i :: 1 <= i < |levels| ==>
              DummyName(prefix, levels[i]) in Indicators(v, prefix, Kept(levels)) &&
              Indicators(v, prefix, Kept(levels))[DummyName(prefix, levels[i])] == Indicator(v == Text(levels[i]))
    ensures forall c1, c2 ::
              (c1 in Indicators(v, prefix, Kept(levels)) && c2 in Indicators(v, prefix, Kept(levels)) &&
               Indicators(v, prefix, Kept(levels))[c1] == Int(1) && Indicators(v, prefix, Kept(levels))[c2] == Int(1))
              ==> c1 == c2
    ensures v == NaN || (|levels| > 0 && v == Text(levels[0])) ==>
              forall c :: c in Indicators(v, prefix, Kept(levels)) ==> Indicators(v, prefix, Kept(levels))[c] == Int(0)
  {
    var kept := Kept(levels);
    var names := DummyColumns(prefix, kept);
    var m := Indicators(v, prefix, kept);
    forall c | c in m
      ensures exists i :: 1 <= i < |levels| && c == DummyName(prefix, levels[i]) && m[c] == Indicator(v == Text(levels[i]))
    {
      var j :| 0 <= j < |names| && names[j] == c;
      LevelOfDummyName(prefix, kept[j]);
      assert c == DummyName(prefix, levels[j + 1]);
    }
    forall i | 1 <= i < |levels|
      ensures DummyName(prefix, levels[i]) in m && m[DummyName(prefix, levels[i])] == Indicator(v == Text(levels[i]))
    {
      assert names[i - 1] == DummyName(prefix, levels[i]);
      LevelOfDummyName(prefix, levels[i]);
    }
    if |levels| > 0 && v == Text(levels[0]) {
      forall i | 1 <= i < |levels|
        ensures levels[i] != levels[0]
      {
        StrLtIrreflexive(levels[0]);
      }
    }
  }

  /** Every dummy column of `prefix` is named like one. */
  lemma IndicatorKeysShape(v: Cell, prefix: string, levels: seq<string>)
    ensures forall c :: c in Indicators(v, prefix, levels) ==> IsDummyOf(prefix, c)
  {
    forall c | c in Indicators(v, prefix, levels)
      ensures IsDummyOf(prefix, c)
    {
      var j :| 0 <= j < |levels| && DummyColumns(prefix, levels)[j] == c;
      DummyNameHead(prefix, levels[j]);
    }
  }

  /** No name is shaped like both a category dummy and a time dummy. */
  lemma DummyShapesApart(c: string)
    ensures !(IsDummyOf("category", c) && IsDummyOf("time", c))
  {
    assert IsDummyOf("category", c) ==> c[0] == c[..9][0] == 'c';
    assert IsDummyOf("time", c) ==> c[0] == c[..5][0] == 't';
  }

  /** Distinct levels give distinct dummy names. */
  lemma DummyColumnsDistinct(prefix: string, levels: seq<string>)
    requires StrictlySorted(levels)
    ensures Distinct(DummyColumns(prefix, Kept(levels)))
  {
    var kept := Kept(levels);
    forall i, j | 0 <= i < j < |kept|
      ensures DummyName(prefix, kept[i]) != DummyName(prefix, kept[j])
    {
      assert kept[i] == levels[i + 1] && kept[j] == levels[j + 1];
      StrLtIrreflexive(kept[i]);
      DummyNameInjective(prefix, kept[i], kept[j]);
    }
  }

  lemma ConcatDistinct(a: seq<string>, b: seq<string>)
    requires Distinct(a) && Distinct(b)
    requires forall x :: x in a ==> x !in b
    ensures Distinct(a + b)
  {
    forall i, j | 0 <= i < j < |a + b|
      ensures (a + b)[i] != (a + b)[j]
    {
      if i < |a| <= j {
        assert (a + b)[i] in a && (a + b)[j] in b;
      }
    }
  }

  /** The columns of get_dummies' result repeat no name. */
  lemma EncodedColumnsDistinct(columns: seq<string>, categoryLevels: seq<string>, timeLevels: seq<string>)
    requires Distinct(columns)
    requires forall c :: c in columns ==> !IsDummyOf("category", c) && !IsDummyOf("time", c)
    requires StrictlySorted(categoryLevels) && StrictlySorted(timeLevels)
    ensures Distinct(Unencoded(columns) + DummyColumns("category", Kept(categoryLevels))
                                        + DummyColumns("time", Kept(timeLevels)))
  {
    var base := Unencoded(columns);
    var cd := DummyColumns("category", Kept(categoryLevels));
    var td := DummyColumns("time", Kept(timeLevels));
    DummyColumnsDistinct("category", categoryLevels);
    DummyColumnsDistinct("time", timeLevels);
    forall x | x in cd
      ensures IsDummyOf("category", x)
    {
      var j :| 0 <= j < |cd| && cd[j] == x;
      DummyNameHead("category", Kept(categoryLevels)[j]);
    }
    forall x | x in td
      ensures IsDummyOf("time", x)
    {
      var j :| 0 <= j < |td| && td[j] == x;
      DummyNameHead("time", Kept(timeLevels)[j]);
    }
    ConcatDistinct(base, cd);
    forall x | x in base + cd
      ensures x !in td
    {
      DummyShapesApart(x);
    }
    ConcatDistinct(base + cd, td);
  }

  /** The cells of one family of dummies in a row that holds them unchanged
      and has no other key shaped like them. */
  lemma FamilyCells(row: Row, v: Cell, prefix: string, levels: seq<string>)
    requires StrictlySorted(levels)
    requires forall c :: c in Indicators(v, prefix, Kept(levels)) ==>
               c in row && row[c] == Indicators(v, prefix, Kept(levels))[c]
    requires forall c :: c in row && IsDummyOf(prefix, c) ==> c in Indicators(v, prefix, Kept(levels))
    ensures forall i :: 1 <= i < |levels| ==>
              DummyName(prefix, levels[i]) in row && row[DummyName(prefix, levels[i])] == Indicator(v == Text(levels[i]))
    ensures forall c1, c2 ::
              (c1 in row && c2 in row && IsDummyOf(prefix, c1) && IsDummyOf(prefix, c2) &&
               row[c1] == Int(1) && row[c2] == Int(1))
              ==> c1 == c2
    ensures v == NaN || (|levels| > 0 && v == Text(levels[0])) ==>
              forall c :: c in row && IsDummyOf(prefix, c) ==> row[c] == Int(0)
  {
    DummiesOneHot(v, prefix, levels);
  }

  /** Where the keys of one encoded row come from: the category dummies and
      the time dummies are in it unchanged, and no other key is shaped like them. */
  lemma EncodedRowLayout(src: Row, categoryKept: seq<string>, timeKept: seq<string>)
    requires "category" in src && "time" in src
    requires forall c :: c in src ==> !IsDummyOf("category", c) && !IsDummyOf("time", c)
    ensures var row := EncodedRow(src, categoryKept, timeKept);
            var cm := Indicators(src["category"], "category", categoryKept);
            && (forall c :: c in cm ==> c in row && row[c] == cm[c])
            && (forall c :: c in row && IsDummyOf("category", c) ==> c in cm)
    ensures var row := EncodedRow(src, categoryKept, timeKept);
            var tm := Indicators(src["time"], "time", timeKept);
            && (forall c :: c in tm ==> c in row && row[c] == tm[c])
            && (forall c :: c in row && IsDummyOf("time", c) ==> c in tm)
    ensures var row := EncodedRow(src, categoryKept, timeKept);
            && "category" !in row && "time" !in row
            && forall c :: c in src && c != "category" && c != "time" ==> c in row && row[c] == src[c]
  {
    var cm := Indicators(src["category"], "category", categoryKept);
    var tm := Indicators(src["time"], "time", timeKept);
    IndicatorKeysShape(src["category"], "category", categoryKept);
    IndicatorKeysShape(src["time"], "time", timeKept);
    forall c | c in cm
      ensures c !in tm
    {
      DummyShapesApart(c);
    }
  }

  /** One row after get_dummies: the other cells are kept and the two encoded cells are gone. */
  lemma EncodedRowKeeps(src: Row, categoryLevels: seq<string>, timeLevels: seq<string>)
    requires "category" in src && "time" in src
    requires forall c :: c in src ==> !IsDummyOf("category", c) && !IsDummyOf("time", c)
    ensures var row := EncodedRow(src, Kept(categoryLevels), Kept(timeLevels));
            && "category" !in row && "time" !in row
            && forall c :: c in src && c != "category" && c != "time" ==> c in row && row[c] == src[c]
  {
    EncodedRowLayout(src, Kept(categoryLevels), Kept(timeLevels));
  }

  /** One row after get_dummies: the category dummies are one-hot over the
      kept levels, and all zero for the smallest level or a missing value. */
  lemma EncodedRowCategory(src: Row, categoryLevels: seq<string>, timeLevels: seq<string>)
    requires "category" in src && "time" in src
    requires StrictlySorted(categoryLevels)
    requires forall c :: c in src ==> !IsDummyOf("category", c) && !IsDummyOf("time", c)
    ensures var row := EncodedRow(src, Kept(categoryLevels), Kept(timeLevels));
            && (forall i :: 1 <= i < |categoryLevels| ==>
                  DummyName("category", categoryLevels[i]) in row &&
                  row[DummyName("category", categoryLevels[i])] == Indicator(src["category"] == Text(categoryLevels[i])))
            && (forall c1, c2 ::
                  (c1 in row && c2 in row && IsDummyOf("category", c1) && IsDummyOf("category", c2) &&
                   row[c1] == Int(1) && row[c2] == Int(1))
                  ==> c1 == c2)
            && (src["category"] == NaN || (|categoryLevels| > 0 && src["category"] == Text(categoryLevels[0])) ==>
                  forall c :: c in row && IsDummyOf("category", c) ==> row[c] == Int(0))
  {
    EncodedRowLayout(src, Kept(categoryLevels), Kept(timeLevels));
    FamilyCells(EncodedRow(src, Kept(categoryLevels), Kept(timeLevels)), src["category"], "category", categoryLevels);
  }

  /** One row after get_dummies: the time dummies are one-hot over the kept
      levels, and all zero for the smallest level or a missing value. */
  lemma EncodedRowTime(src: Row, categoryLevels: seq<string>, timeLevels: seq<string>)
    requires "category" in src && "time" in src
    requires StrictlySorted(timeLevels)
    requires forall c :: c in src ==> !IsDummyOf("category", c) && !IsDummyOf("time", c)
    ensures var row := EncodedRow(src, Kept(categoryLevels), Kept(timeLevels));
            && (forall i :: 1 <= i < |timeLevels| ==>
                  DummyName("time", timeLevels[i]) in row &&
                  row[DummyName("time", timeLevels[i])] == Indicator(src["time"] == Text(timeLevels[i])))
            && (forall c1, c2 ::
                  (c1 in row && c2 in row && IsDummyOf("time", c1) && IsDummyOf("time", c2) &&
                   row[c1] == Int(1) && row[c2] == Int(1))
                  ==> c1 == c2)
            && (src["time"] == NaN || (|timeLevels| > 0 && src["time"] == Text(timeLevels[0])) ==>
                  forall c :: c in row && IsDummyOf("time", c) ==> row[c] == Int(0))
  {
    EncodedRowLayout(src, Kept(categoryLevels), Kept(timeLevels));
    FamilyCells(EncodedRow(src, Kept(categoryLevels), Kept(timeLevels)), src["time"], "time", timeLevels);
  }

  /** The keys of one encoded row are the encoded frame's columns, when the
      row had exactly the original columns. */
  lemma EncodedRowKeys(src: Row, columns: seq<string>, categoryKept: seq<string>, timeKept: seq<string>)
    requires "category" in src && "time" in src
    requires src.Keys == set c | c in columns
    ensures EncodedRow(src, categoryKept, timeKept).Keys ==
              set c | c in Unencoded(columns) + DummyColumns("category", categoryKept) + DummyColumns("time", timeKept)
  {
    var cm := Indicators(src["category"], "category", categoryKept);
    var tm := Indicators(src["time"], "time", timeKept);
    assert src.Keys - {"category", "time"} == set c | c in Unencoded(columns);
    assert EncodedRow(src, categoryKept, timeKept).Keys == (src.Keys - {"category", "time"}) + cm.Keys + tm.Keys;
  }

  /** get_dummies yields a well-formed frame: every row has exactly the new
      columns, no name repeats, and the row count is kept. */
  lemma EncodeCategoricalRectangular(t: Table)
    requires Encodable(t) && EncodeCategorical(t).Ok?
    ensures Rectangular(EncodeCategorical(t).value)
    ensures |EncodeCategorical(t).value.rows| == |t.rows|
  {
    var categoryKept := Kept(Levels(Column(t.rows, "category")));
    var timeKept := Kept(Levels(Column(t.rows, "time")));
    var r := EncodeCategorical(t).value;
    var columns := Unencoded(t.columns) + DummyColumns("category", categoryKept) + DummyColumns("time", timeKept);
    assert r.columns == columns;
    EncodedColumnsDistinct(t.columns, Levels(Column(t.rows, "category")), Levels(Column(t.rows, "time")));
    forall k | 0 <= k < |r.rows|
      ensures r.rows[k].Keys == set c | c in columns
    {
      assert r.rows[k] == EncodedRow(t.rows[k], categoryKept, timeKept);
      EncodedRowKeys(t.rows[k], t.columns, categoryKept, timeKept);
    }
  }

  /** Row k of the encoded frame is EncodedRow of row k of the input, whose keys meet the requirements of the row lemmas. */
  lemma EncodedRowCells(t: Table, k: nat)
    requires Encodable(t) && EncodeCategorical(t).Ok? && k < |t.rows|
    ensures EncodeCategorical(t).value.rows[k] ==
              EncodedRow(t.rows[k], Kept(Levels(Column(t.rows, "category"))), Kept(Levels(Column(t.rows, "time"))))
    ensures "category" in t.rows[k] && "time" in t.rows[k]
    ensures forall c :: c in t.rows[k] ==> !IsDummyOf("category", c) && !IsDummyOf("time", c)
  {
  }

  // ---------------------------------------------------------------------
  // preprocess_data
  // ---------------------------------------------------------------------

  /** Rows of the same shape whose category cells are those of t cleaned
      by CleanCategory form an encodable frame with t's columns. */
  lemma EncodableAfterCleaning(t: Table, rows: seq<Row>)
    requires Encodable(t)
    requires SameShape(t.rows, rows, CleanedColumns)
    requires forall k :: 0 <= k < |rows| && "category" in rows[k] ==>
               rows[k]["category"] == CleanCategory(t.rows[k]["category"])
    ensures Encodable(Table(t.columns, rows))
  {
    forall k | 0 <= k < |rows| && "time" in rows[k]
      ensures rows[k]["time"].Text? || rows[k]["time"] == NaN
    {
      assert 0 <= k < |t.rows| && "time" in t.rows[k] && "time" !in CleanedColumns;
    }
  }

  /** On success, the category column is cleaned row by row. */
  lemma CleanedCategories(t: Table, weightMean: seq<Cell> -> Cell)
    requires Rectangular(t) && Cleaned(t, weightMean).0.Ok?
    ensures |Cleaned(t, weightMean).1| == |t.rows|
    ensures forall k :: 0 <= k < |t.rows| ==>
              && "category" in t.rows[k]
              && "category" in Cleaned(t, weightMean).1[k]
              && Cleaned(t, weightMean).1[k]["category"] == CleanCategory(t.rows[k]["category"])
  {
    CleanedRowByRow(t, weightMean);
    CleanedSucceedsWhen(t, weightMean);
  }

  /** clean_data keeps the frame encodable: "-" becomes "unknown", a string. */
  lemma CleanedKeepsEncodable(t: Table, weightMean: seq<Cell> -> Cell)
    requires Encodable(t) && Cleaned(t, weightMean).0.Ok?
    ensures Encodable(Table(t.columns, Cleaned(t, weightMean).1))
  {
    CleanedKeepsOtherColumns(t, weightMean);
    CleanedCategories(t, weightMean);
    EncodableAfterCleaning(t, Cleaned(t, weightMean).1);
  }

  /** feature_engineering keeps the frame encodable: the ratio column is not
      shaped like a dummy column. */
  lemma EngineeredKeepsEncodable(t: Table, ratio: (Cell, Cell) -> Cell)
    requires Encodable(t) && Engineered(t, ratio).Ok?
    ensures Encodable(Engineered(t, ratio).value)
  {
    assert RatioColumn[0] == 'm' && "category_"[0] == 'c' && "time_"[0] == 't';
    assert RatioColumn[..9][0] != "category_"[0] && RatioColumn[..5][0] != "time_"[0];
  }

  /** A row holding the five columns the two in-place steps read, whose
      days_before converts. */
  predicate Readable(row: Row)
  {
    && "weight" in row && "days_before" in row && "day_of_week" in row
    && "category" in row && "months_as_member" in row
    && DaysBefore(row["days_before"]).Ok?
  }

  lemma RowsReadable(t: Table)
    requires Rectangular(t)
    requires && "weight" in t.columns && "days_before" in t.columns && "day_of_week" in t.columns
             && "category" in t.columns && "months_as_member" in t.columns
    requires forall k :: 0 <= k < |t.rows| ==> DaysBefore(t.rows[k]["days_before"]).Ok?
    ensures forall k :: 0 <= k < |t.rows| ==> Readable(t.rows[k])
  {
    forall k | 0 <= k < |t.rows|
      ensures Readable(t.rows[k])
    {
      var names := set c | c in t.columns;
      assert "weight" in names && "day_of_week" in names && "category" in names && "months_as_member" in names;
    }
  }

  /** The frame after the two in-place steps of preprocess_data (lines 55 and 58). */
  function CleanedAndEngineered(t: Table, weightMean: seq<Cell> -> Cell, ratio: (Cell, Cell) -> Cell): (r: Result<Table, Failure>)
    requires Encodable(t)
    ensures r.Ok? ==> Encodable(r.value)
    ensures r.Ok? ==> |r.value.rows| == |t.rows| && r.value.columns == WithName(t.columns, RatioColumn)
  {
    var (outcome, rows) := Cleaned(t, weightMean);
    if outcome.Err? then Err(outcome.error)
    else
      CleanedKeepsEncodable(t, weightMean);
      CleanedKeepsOtherColumns(t, weightMean);
      var cleaned := Table(t.columns, rows);
      match Engineered(cleaned, ratio)
      case Err(e) => Err(e)
      case Ok(featured) =>
        EngineeredKeepsEncodable(cleaned, ratio);
        Ok(featured)
  }

  /** preprocess_data (lines 47-63) on the frame load_data returns: clean,
      then feature engineering, then get_dummies; the first exception ends it. */
  function Preprocessed(t: Table, weightMean: seq<Cell> -> Cell, ratio: (Cell, Cell) -> Cell): (r: Result<Table, Failure>)
    requires Encodable(t)
    ensures r.Ok? ==> |r.value.rows| == |t.rows|
    ensures r.Ok? ==> RatioColumn in r.value.columns && "category" !in r.value.columns && "time" !in r.value.columns
  {
    match CleanedAndEngineered(t, weightMean, ratio)
    case Err(e) => Err(e)
    case Ok(featured) =>
      assert RatioColumn in featured.columns && RatioColumn[0] == 'm';
      assert RatioColumn in Unencoded(featured.columns);
      EncodeCategorical(featured)
  }

  /** preprocess_data, with the loaded frame as its input: the two in-place
      steps update one DataFrame, which is then encoded into a new one. */
  method PreprocessData(loaded: Table, weightMean: seq<Cell> -> Cell, ratio: (Cell, Cell) -> Cell)
    returns (r: Result<Table, Failure>)
    requires Encodable(loaded)
    ensures r == Preprocessed(loaded, weightMean, ratio)
  {
    var df := new DataFrame(loaded);
    var cleaned := CleanData(df, weightMean);
    if cleaned.Err? {
      return Err(cleaned.error);
    }
    CleanedKeepsEncodable(loaded, weightMean);
    ghost var afterClean := df.Snapshot();
    var featured := FeatureEngineering(df, ratio);
    if featured.Err? {
      return Err(featured.error);
    }
    EngineeredKeepsEncodable(afterClean, ratio);
    r := EncodeCategorical(df.Snapshot());
  }

  /** An encodable frame with the six columns preprocess_data reads, whose
      every days_before cell converts and whose day_of_week column `.str`
      accepts. */
  predicate Preprocessable(t: Table)
  {
    && Encodable(t)
    && "weight" in t.columns && "days_before" in t.columns && "day_of_week" in t.columns
    && "category" in t.columns && "months_as_member" in t.columns && "time" in t.columns
    && (forall k :: 0 <= k < |t.rows| ==> DaysBefore(t.rows[k]["days_before"]).Ok?)
    && StrAccessorAccepts(Column(t.rows, "day_of_week"))
  }

  /** preprocess_data succeeds exactly when the six columns it reads exist,
      every days_before cell converts and `.str` accepts the day_of_week
      column. */
  lemma PreprocessedSucceedsWhen(t: Table, weightMean: seq<Cell> -> Cell, ratio: (Cell, Cell) -> Cell)
    requires Encodable(t)
    ensures Preprocessed(t, weightMean, ratio).Ok? <==> Preprocessable(t)
  {
    CleanedAndEngineeredSucceedsWhen(t, weightMean, ratio);
    var r := CleanedAndEngineered(t, weightMean, ratio);
    if r.Ok? {
      RatioColumnKeepsNames(t.columns);
    }
  }

  /** Adding the ratio column neither adds nor hides category or time. */
  lemma RatioColumnKeepsNames(columns: seq<string>)
    ensures "category" in WithName(columns, RatioColumn) <==> "category" in columns
    ensures "time" in WithName(columns, RatioColumn) <==> "time" in columns
  {
    var names := set c | c in WithName(columns, RatioColumn);
    assert names == (set c | c in columns) + {RatioColumn};
    assert RatioColumn[0] == 'm';
    assert "category" in WithName(columns, RatioColumn) <==> "category" in names;
    assert "time" in WithName(columns, RatioColumn) <==> "time" in names;
  }

  /** The two in-place steps complete exactly when the five columns they
      read exist, every days_before cell converts and `.str` accepts the
      day_of_week column. */
  lemma CleanedAndEngineeredSucceedsWhen(t: Table, weightMean: seq<Cell> -> Cell, ratio: (Cell, Cell) -> Cell)
    requires Encodable(t)
    ensures CleanedAndEngineered(t, weightMean, ratio).Ok? <==>
              && "weight" in t.columns && "days_before" in t.columns && "day_of_week" in t.columns
              && "category" in t.columns && "months_as_member" in t.columns
              && (forall k :: 0 <= k < |t.rows| ==> DaysBefore(t.rows[k]["days_before"]).Ok?)
              && StrAccessorAccepts(Column(t.rows, "day_of_week"))
  {
    CleanedSucceedsWhen(t, weightMean);
  }

  /** The two in-place steps, taken apart. */
  lemma CleanedAndEngineeredSteps(t: Table, weightMean: seq<Cell> -> Cell, ratio: (Cell, Cell) -> Cell)
    requires Encodable(t) && CleanedAndEngineered(t, weightMean, ratio).Ok?
    ensures Cleaned(t, weightMean).0.Ok?
    ensures Rectangular(Table(t.columns, Cleaned(t, weightMean).1))
    ensures Engineered(Table(t.columns, Cleaned(t, weightMean).1), ratio).Ok?
    ensures CleanedAndEngineered(t, weightMean, ratio).value ==
              Engineered(Table(t.columns, Cleaned(t, weightMean).1), ratio).value
  {
    CleanedKeepsRectangular(t, weightMean);
  }

  /** Row k of the engineered frame: the cleaned row with the ratio cell set. */
  lemma EngineeredRow(t: Table, ratio: (Cell, Cell) -> Cell, k: nat)
    requires Rectangular(t) && Engineered(t, ratio).Ok? && k < |t.rows|
    ensures "months_as_member" in t.rows[k] && "days_before" in t.rows[k]
    ensures Engineered(t, ratio).value.columns == WithName(t.columns, RatioColumn)
    ensures |Engineered(t, ratio).value.rows| == |t.rows|
    ensures Engineered(t, ratio).value.rows[k] ==
              t.rows[k][RatioColumn := ratio(t.rows[k]["months_as_member"], t.rows[k]["days_before"])]
  {
  }

  /** The ratio cell of a cleaned row reads its months_as_member and its
      converted days_before. */
  lemma EngineeredCleanRow(cleaned: Table, ratio: (Cell, Cell) -> Cell, k: nat, src: Row, mean: Cell)
    requires Rectangular(cleaned) && Engineered(cleaned, ratio).Ok? && k < |cleaned.rows|
    requires "weight" in src && "days_before" in src && "day_of_week" in src && "category" in src
    requires "months_as_member" in src && DaysBefore(src["days_before"]).Ok?
    requires cleaned.rows[k] == CleanRow(src, mean)
    ensures Engineered(cleaned, ratio).value.rows[k] ==
              CleanRow(src, mean)[RatioColumn := ratio(src["months_as_member"], Int(DaysBefore(src["days_before"]).value))]
  {
    EngineeredRow(cleaned, ratio, k);
  }

  /** Row k after the two in-place steps: cleaned, with the ratio of its
      months_as_member and its converted days_before appended. */
  lemma CleanedAndEngineeredRow(t: Table, weightMean: seq<Cell> -> Cell, ratio: (Cell, Cell) -> Cell, k: nat)
    requires Encodable(t) && CleanedAndEngineered(t, weightMean, ratio).Ok? && k < |t.rows|
    ensures forall j :: 0 <= j < |t.rows| ==> Readable(t.rows[j])
    ensures CleanedAndEngineered(t, weightMean, ratio).value.rows[k] ==
              EngineeredCleanRowOf(t.rows[k], WeightMeanOf(t.rows, weightMean), ratio)
  {
    CleanedAndEngineeredSteps(t, weightMean, ratio);
    CleanedSucceedsWhen(t, weightMean);
    RowsReadable(t);
    var rows := Cleaned(t, weightMean).1;
    var mean := weightMean(Column(t.rows, "weight"));
    CleanedRowByRow(t, weightMean);
    assert rows[k] == CleanRow(t.rows[k], mean);
    EngineeredCleanRow(Table(t.columns, rows), ratio, k, t.rows[k], mean);
  }

  /** The weight mean clean_data fills with: the mean of the original column. */
  function WeightMeanOf(rows: seq<Row>, weightMean: seq<Cell> -> Cell): (mean: Cell)
    requires forall j :: 0 <= j < |rows| ==> Readable(rows[j])
  {
    assert forall j :: 0 <= j < |rows| ==> "weight" in rows[j] by {
      forall j | 0 <= j < |rows|
        ensures "weight" in rows[j]
      {
        assert Readable(rows[j]);
      }
    }
    weightMean(Column(rows, "weight"))
  }

  /** A row after both in-place steps: cleaned, then given the ratio of its
      months_as_member and its converted days_before. */
  function EngineeredCleanRowOf(row: Row, mean: Cell, ratio: (Cell, Cell) -> Cell): (r: Row)
    requires Readable(row)
  {
    CleanRow(row, mean)[RatioColumn := ratio(row["months_as_member"], Int(DaysBefore(row["days_before"]).value))]
  }

  /** A cleaned row with its ratio cell set: the cleaned cells, the ratio,
      and every other cell as it was. */
  lemma CleanRowCells(src: Row, mean: Cell, r: Cell)
    requires "weight" in src && "days_before" in src && "day_of_week" in src && "category" in src
    requires DaysBefore(src["days_before"]).Ok?
    ensures var fr := CleanRow(src, mean)[RatioColumn := r];
            && fr.Keys == src.Keys + {RatioColumn}
            && fr["weight"] == FillWeight(src["weight"], mean)
            && fr["days_before"] == Int(DaysBefore(src["days_before"]).value)
            && fr["day_of_week"] == WeekdayCode(src["day_of_week"])
            && fr["category"] == CleanCategory(src["category"])
            && fr[RatioColumn] == r
            && forall c :: c in src && c !in CleanedColumns && c != RatioColumn ==> fr[c] == src[c]
  {
  }
}
