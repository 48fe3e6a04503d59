# Fitness attendance predictor: feature encoding, in Dafny

This project models the feature encoding of a fitness-class attendance
predictor. It has two sides.

- **Inference** (`app.py`). `FitnessAttendancePredictor.preprocess_input`
  takes the booking dict built by the input form. It rewrites the
  `day_of_week` and `time` tokens in place with their codes, then one-hot
  encodes `category` and `time` with `pandas.get_dummies`. Every missing
  schema column is added as 0, and the frame is projected onto the ten
  columns the classifier was trained on. Any exception makes it return
  `None`. `predict_attendance` guards on the loaded model and on that
  `None`. It then returns the classifier's first label and the class-1
  probability, or `(None, None)` if the classifier raises.
- **Training** (`scripts/data_preprocessing.py`). `clean_data` does four
  things in place:
  - fills missing weights with the column mean;
  - turns `"8 days"` into `8` through `str.replace` and `astype(int)`;
  - codes the first three letters of the day;
  - renames the category `"-"` to `"unknown"`.

  The `.str` accessor of the second and third steps raises AttributeError
  on a column that has cells but no string.

  `feature_engineering` adds `months_to_days_ratio`.
  `encode_categorical_variables` applies `get_dummies(..., drop_first=True)`.
  `preprocess_data` chains the three.

Modules:

- `Common` holds cells, rows, the exceptions and dummy-column names.
- `Strings` holds Python's `int()`/`str()` on digit strings and Python's
  string order, which `get_dummies` uses to sort levels.
- `Inference` holds the encoder as functions of the dict.
  - `Encode` is what `preprocess_input` returns, stated slot by slot:
    `SlotVector` gives each schema column its value directly.
  - `Rewritten` is what it leaves in the caller's dict.
  - `OneHotFrame`, `ZeroFilled` and `Select` follow the code's own steps
    (`get_dummies`, the fill loop, the projection); `FrameIsSlotVector`
    proves that they build the same vector.
- `App` holds the predictor class.
  - `PreprocessInput` mutates an `InputDict` object.
  - `PredictAttendance` calls the classifier, which is a parameter.
- `Training` holds the frame operations.
  - `DataFrame` is a class whose rows live in an array updated in place.
  - The methods `CleanData`, `FeatureEngineering` and `PreprocessData` are
    each proved equal to a specification function: `Cleaned`, `Engineered`
    and `Preprocessed`.
  - `EncodeCategorical` is `get_dummies`.
- `Consistency` relates the two sides:
  - on the training categories and times, `get_dummies` yields exactly the
    inference schema's six dummy columns;
  - the day codes agree;
  - the category slots agree;
  - `time_PM` does not agree.

  The training frame also has `months_to_days_ratio`
  (`scripts/data_preprocessing.py:36`), which the inference schema of
  `app.py:41-45` does not list; only the dummy columns and the day codes are
  shown to match.

Two behaviours of the code are easy to miss:

- **`time_PM` is always 0 at inference.** `app.py:36` replaces the token
  `"PM"` by the integer 1 before `get_dummies`. The dummy column is
  therefore `time_1`, which the projection drops, and the fill loop adds
  `time_PM` as 0. See `Inference.TimePMIsAlwaysZero` and
  `Consistency.TimePMDiverges`. The training frame, by contrast, has
  `time_PM = 1` for PM rows.
- **Numeric fields are not range-checked.** A negative months, weight or
  days value is copied into the vector as given (`Inference.LeadingSlots`).
  Only the form's sliders bound them.

## Model

| member | source | states |
|---|---|---|
| `Common.DummyNameInjective` | app.py:38-39 | two levels share a get_dummies column name only if they are the same level |
| `Strings.DigitsValueOfNatToString` | scripts/data_preprocessing.py:19 | reading back the decimal digits of a natural number gives the number |
| `Strings.InsertSorted` | scripts/data_preprocessing.py:44 | inserting a level keeps the level list strictly sorted, and its elements are the old ones plus the new |
| `Strings.StrictlySortedUnique` | scripts/data_preprocessing.py:44 | a set of levels has one strictly sorted order, so the sorted levels of a column are determined by its values |
| `Inference.DayCode` | app.py:32-35 | the day lookup yields a code from 1 to 7, or fails |
| `Inference.TimeCode` | app.py:33-36 | the time lookup yields 0 or 1, or fails |
| `Inference.Rewritten` | app.py:35-36 | the dict keeps its keys, and no value other than day_of_week and time changes |
| `Inference.OneHotFrame` | app.py:38-39 | get_dummies removes the category and time columns and adds the column of the category and the column time_<code>, named after the integer code, each holding 1 |
| `Inference.ZeroFilled` | app.py:47-49 | after the fill loop the frame has its own columns plus every schema column |
| `Inference.SlotVector` | app.py:41-45 | the reference vector has one slot per schema column |
| `Inference.Encode` | app.py:30-54 | preprocessing succeeds exactly when the day and time tokens are known and a category is given, and then gives one value per schema column with time_PM at 0 |
| `Inference.FrameIsSlotVector` | app.py:35-51 | when the day and time tokens are known and a category is given, the one-hot frame, zero-filled and projected onto the schema, is exactly the slot-by-slot reference vector |
| `Inference.CategorySlotsOneHot` | app.py:38-45 | the five category slots are 0/1, slot k is 1 exactly when the category is its level, at most one is 1, and an unslotted category (Aqua) gives all zeros |
| `Inference.TimePMIsAlwaysZero` | app.py:33-49 | time_PM is 0 for every input, because a PM booking yields the column time_1 and never time_PM |
| `Inference.TimeTokenDoesNotReachVector` | app.py:33-51 | AM and PM bookings that are otherwise equal encode to the same result |
| `Inference.LeadingSlots` | app.py:35-51 | slots 0-2 copy months, weight and days as given (0 when absent, negatives kept), and slot 3 is the day code |
| `Inference.FailuresAndWrites` | app.py:35-54 | an unknown day fails with the dict untouched; a known day with an unknown time fails after day_of_week was overwritten; a missing category fails; no key is added to the dict |
| `Inference.SecondCallFails` | app.py:32-36 | after a successful call the dict holds codes, so a second call on it fails |
| `Inference.EncodeExample` | app.py:30-51 | a Wednesday PM HIIT booking encodes to 12, 70.0, 7, 3, then HIIT's slot at 1 and time_PM at 0 |
| `App.AddMissingColumns` | app.py:47-49 | the loop adds each missing schema column with 0 and changes no existing column |
| `App.FitnessAttendancePredictor.constructor` | app.py:16-28 | the predictor keeps the loaded model, or none after a failed load |
| `App.Predicted` | app.py:112-126 | a prediction is returned only when a model is loaded and preprocessing succeeds |
| `App.FitnessAttendancePredictor.PreprocessInput` | app.py:30-54 | returns the encoding of the dict as it was on entry, and leaves the dict with its day and time overwritten as far as the lookups succeeded |
| `App.FitnessAttendancePredictor.PredictAttendance` | app.py:112-126 | returns the prediction for the entry dict; the dict is untouched when no model is loaded and rewritten otherwise |
| `App.PredictionPaths` | app.py:112-126 | no model or failed preprocessing gives (None, None); a prediction is the classifier's first label and the class-1 probability of its first row, on the reference vector; and conversely, when both calls succeed with at least one label and two class probabilities, that pair is returned |
| `App.TimeDoesNotChangePrediction` | app.py:112-123 | for any classifier, AM and PM bookings get the same prediction |
| `App.UnslottedCategoriesPredictAlike` | app.py:38-51 | for any classifier, two categories without a schema slot get the same prediction |
| `Training.StripDays` | scripts/data_preprocessing.py:19 | removing " days" never lengthens the text |
| `Training.StripDaysKeepsSpacelessPrefix` | scripts/data_preprocessing.py:19 | the removal leaves a prefix without spaces unchanged |
| `Training.ParseInt` | scripts/data_preprocessing.py:19 | int() succeeds only on a signed decimal literal in the 64-bit range, and raises ValueError on any other text |
| `Training.ParseIntOfPrinted` | scripts/data_preprocessing.py:19 | parsing the printed form of every 64-bit number, from -2^63 to 2^63-1, gives it back, and 2^63 overflows |
| `Training.DaysBefore` | scripts/data_preprocessing.py:19 | a days_before cell converts only if it is text whose " days"-stripped form is an integer literal |
| `Training.DaysBeforeReadsCount` | scripts/data_preprocessing.py:19 | "n days" and "n" both convert to n |
| `Training.WeekdayCode` | scripts/data_preprocessing.py:22-24 | a day cell becomes a code from 1 to 7 or a missing value; the lookup itself never raises (the column-level AttributeError of `.str` is in `Training.Cleaned`) |
| `Training.WeekdayCodeReadsPrefix` | scripts/data_preprocessing.py:22-24 | a day name is coded by its first three letters, and an unknown prefix gives a missing value |
| `Training.WeekdayCodeExample` | scripts/data_preprocessing.py:22-24 | "Wednesday" is coded 3 |
| `Training.CleanCategory` | scripts/data_preprocessing.py:27 | "-" becomes "unknown" and every other category is kept |
| `Training.ParseDaysColumn` | scripts/data_preprocessing.py:19 | the column converts cell by cell, or the conversion raises the exception of its first failing cell |
| `Training.FilledWeights` | scripts/data_preprocessing.py:16 | each missing weight becomes the column mean and every other weight is kept; when the mean is not itself missing, no missing weight remains |
| `Training.Cleaned` | scripts/data_preprocessing.py:11-29 | clean_data keeps the row count, and a KeyError it raises names one of its four columns that the frame lacks |
| `Training.CleanRow` | scripts/data_preprocessing.py:16-27 | a cleaned row keeps its keys and every cell outside the four cleaned columns; its days_before is an integer and its category is never "-" |
| `Training.CleanedRaisesOnTextlessWeekdays` | scripts/data_preprocessing.py:16-22 | every rectangular frame that has weight, days_before and day_of_week, whose days_before cells all convert, and whose day_of_week column is non-empty and holds no string makes clean_data raise AttributeError at `.str` |
| `Training.CleanedIntegerWeekdaysRaise` | scripts/data_preprocessing.py:22 | the one-row frame {weight: 70.0, days_before: "8", day_of_week: 3, category: "HIIT"} is rectangular and makes clean_data raise AttributeError |
| `Training.CleanedSucceedsWhen` | scripts/data_preprocessing.py:11-29 | clean_data completes exactly when its four columns exist, every days_before converts, and the day_of_week column is empty or holds a string, so `.str` does not raise |
| `Training.CleanedIsStages` | scripts/data_preprocessing.py:11-29 | on success the four in-place column updates of clean_data equal the staged whole-column rewrite, and every days_before cell parses |
| `Training.CleanStagesRowByRow` | scripts/data_preprocessing.py:11-29 | the staged rewrite keeps the row count and turns each row into CleanRow of that row with the mean of the original weight column |
| `Training.CleanedRowByRow` | scripts/data_preprocessing.py:11-29 | on success every row is rewritten by CleanRow with the mean of the original weight column |
| `Training.CleanedKeepsOtherColumns` | scripts/data_preprocessing.py:11-29 | whether it completes or raises, clean_data keeps the row count and each row's keys, and changes no cell outside its four columns |
| `Training.CleanedKeepsRectangular` | scripts/data_preprocessing.py:11-29 | even after an exception, the frame's rows still have exactly its columns |
| `Training.DataFrame.SetColumn` | scripts/data_preprocessing.py:16 | column assignment overwrites that column in every row (appending its name when new), in place, and keeps the frame rectangular |
| `Training.ConvertDaysBefore` | scripts/data_preprocessing.py:19 | the loop over the rows gives exactly the column conversion's result |
| `Training.CleanData` | scripts/data_preprocessing.py:11-29 | the in-place method signals and leaves exactly what Cleaned describes, with the array and column list kept |
| `Training.Engineered` | scripts/data_preprocessing.py:31-38 | adding the ratio column keeps the frame rectangular |
| `Training.FeatureEngineering` | scripts/data_preprocessing.py:31-38 | the in-place method succeeds exactly when Engineered does, leaves its frame, and on KeyError leaves the frame unchanged |
| `Training.Levels` | scripts/data_preprocessing.py:44 | the levels of a column are its distinct strings, strictly sorted, with missing values excluded |
| `Training.Kept` | scripts/data_preprocessing.py:44 | drop_first keeps only levels of the column, and of a sorted level list exactly those above the smallest, still sorted |
| `Training.Unencoded` | scripts/data_preprocessing.py:44 | the kept columns are exactly the original columns other than category and time, a subsequence of the original list (so in their original order), and without repeats |
| `Training.EncodedRow` | scripts/data_preprocessing.py:44 | an encoded row holds neither category nor time |
| `Training.EncodeCategorical` | scripts/data_preprocessing.py:40-45 | get_dummies succeeds exactly when category and time are columns, otherwise raises KeyError; the model's KeyError names only the first missing column (category before time), where pandas names every missing one; on success it keeps the row count and has neither column |
| `Training.DummiesOneHot` | scripts/data_preprocessing.py:44 | under drop_first each kept level's cell is 1 exactly when the value is that level, at most one cell is 1, and the first level or a missing value gives all zeros |
| `Training.DummyColumnsDistinct` | scripts/data_preprocessing.py:44 | distinct levels give distinct dummy column names |
| `Training.EncodedColumnsDistinct` | scripts/data_preprocessing.py:44 | the encoded frame's column names do not repeat |
| `Training.EncodedRowLayout` | scripts/data_preprocessing.py:44 | an encoded row holds the category dummies, the time dummies and the other cells unchanged, and nothing else shaped like a dummy |
| `Training.EncodedRowKeeps` | scripts/data_preprocessing.py:44 | an encoded row keeps every other cell and drops category and time |
| `Training.EncodedRowCategory` | scripts/data_preprocessing.py:44 | an encoded row's category dummies are one-hot over the kept levels |
| `Training.EncodedRowTime` | scripts/data_preprocessing.py:44 | an encoded row's time dummies are one-hot over the kept levels |
| `Training.EncodeCategoricalRectangular` | scripts/data_preprocessing.py:40-45 | get_dummies keeps the row count and gives a frame whose rows have exactly its distinct columns |
| `Training.EncodedRowCells` | scripts/data_preprocessing.py:44 | row k of the encoded frame is the encoding of row k |
| `Training.CleanedCategories` | scripts/data_preprocessing.py:27 | on success the category column is cleaned row by row |
| `Training.CleanedKeepsEncodable` | scripts/data_preprocessing.py:11-29 | clean_data leaves a frame get_dummies can encode |
| `Training.EngineeredKeepsEncodable` | scripts/data_preprocessing.py:36 | the ratio column keeps the frame encodable |
| `Training.CleanedAndEngineered` | scripts/data_preprocessing.py:55-58 | the frame after the two in-place steps can be encoded |
| `Training.Preprocessed` | scripts/data_preprocessing.py:47-63 | on success the encoded frame keeps the row count, has the ratio column and has neither category nor time |
| `Training.PreprocessData` | scripts/data_preprocessing.py:47-63 | the method chaining the steps on one DataFrame gives exactly Preprocessed |
| `Training.PreprocessedSucceedsWhen` | scripts/data_preprocessing.py:47-63 | given the mean and the division as parameters, preprocess_data succeeds exactly when its six columns exist, every days_before converts and `.str` accepts the day_of_week column |
| `Training.CleanedAndEngineeredSteps` | scripts/data_preprocessing.py:55-58 | the chained frame is feature_engineering applied to the cleaned rows |
| `Training.EngineeredRow` | scripts/data_preprocessing.py:36 | each row gains the ratio of its own months_as_member and days_before |
| `Training.EngineeredCleanRow` | scripts/data_preprocessing.py:36 | the ratio of a cleaned row uses its converted days_before |
| `Training.CleanedAndEngineeredSucceedsWhen` | scripts/data_preprocessing.py:55-58 | given the mean and the division as parameters, clean_data followed by feature_engineering completes exactly when the five columns they read exist, every days_before converts and `.str` accepts the day_of_week column |
| `Training.CleanedAndEngineeredRow` | scripts/data_preprocessing.py:55-58 | on success every loaded row holds the five columns the steps read, and row k after the two steps is the cleaned row with the ratio of months_as_member to the converted days_before |
| `Training.CleanRowCells` | scripts/data_preprocessing.py:16-36 | a cleaned row has the filled weight, the converted days, the day code, the cleaned category and the ratio, with every other cell unchanged |
| `Consistency.CategoryLevelsOfTrainingData` | app.py:41-45 | the six training categories sort with Aqua first, so drop_first leaves exactly the schema's five category columns |
| `Consistency.TimeLevelsOfTrainingData` | app.py:41-45 | AM and PM give the single dummy column time_PM |
| `Consistency.TrainingDummiesMatchSchema` | scripts/data_preprocessing.py:44 | on the training values, get_dummies appends exactly the schema's six dummy columns, in schema order |
| `Consistency.DayCodesAgree` | scripts/data_preprocessing.py:22-24 | the training day code of a string is the inference code of its first three letters, in both directions |
| `Consistency.CategoryEncodingAgrees` | app.py:38-45 | a training row and a booking with the same category get the same five category indicators |
| `Consistency.TimePMDiverges` | app.py:33-36 | a PM training row has time_PM 1, while a PM booking gets time_PM 0 |

## Left out

- The Streamlit page: configuration, sidebar, dashboard, charts and error messages (`st.error`). These are UI and I/O. The form is reflected only in the keys and values a booking dict may hold.
- Loading the classifier with `pickle` from `final_model.pkl`. The constructor takes the load's outcome (a model, or none).
- The classifier itself. `predict` and `predict_proba` are opaque function parameters, and `None` stands for a call that raised.
- `load_data`, which reads a fixed CSV path and ignores its argument. `PreprocessData` takes the loaded table.
- `Training.FilledWeights`: the floating-point mean of `df['weight'].mean()` is the parameter `weightMean`, not computed.
- `Training.Engineered`: the floating-point division `months_as_member / days_before`, including division by zero giving inf, is the total parameter `ratio`. The TypeError that the division raises when months_as_member holds a string (or another non-numeric value) is not modelled, so `Engineered` always completes.
- `Inference.Admissible`: the booking dict is assumed to hold only the six form keys and a string category, as the form builds it. A dict with extra keys, or a non-string category, is not modelled.
- `Training.Encodable`: frames are assumed to hold strings or missing values in category and time, and no column already shaped like a dummy column. `get_dummies` on other values, and clashing column names, are not modelled.
- `Training.ParseInt`: Python's `int()` also accepts surrounding whitespace, underscores between digits and non-ASCII decimal digits (such as "３" or "٣"). The model rejects them, so it is weaker than the source on such inputs.
- `Training.DataFrame.SetColumn`: a pandas column keeps a dtype. The model does not track dtypes, so `astype(int)` and the float weight column are cells.
- `Common.Indicator`: pandas gives dummy columns as booleans (or `uint8` in older versions). The model uses the numbers 0 and 1, which is how the classifier reads them.
- `Training.Preprocessed`: there is no single lemma giving a row of the final encoded frame in terms of the loaded row. The link goes through `Training.CleanedAndEngineeredRow` and `Training.EncodedRowCells`, applied to the frame after the two in-place steps.
- `Training.CleanedRowByRow`: the contract covers the successful run only. After an exception, `Training.CleanedKeepsOtherColumns` states what is kept, not each partially updated cell.
- `Training.CleanedSucceedsWhen`: "exactly when" holds given the mean as the parameter `weightMean`. The TypeError that `df['weight'].mean()` raises on a weight column holding strings is not modelled.
- `Training.CleanedAndEngineeredSucceedsWhen`: "exactly when" holds given `weightMean` and `ratio`, as for `Training.CleanedSucceedsWhen`. Two TypeErrors are not modelled: that of `mean()` on a non-numeric weight column, and that of the division at scripts/data_preprocessing.py:36 on a non-numeric months_as_member (a frame with months_as_member "twelve" raises there, while the model succeeds).
- `Training.PreprocessedSucceedsWhen`: "exactly when" holds given `weightMean` and `ratio`, as for `Training.CleanedAndEngineeredSucceedsWhen`. Neither the TypeError of `mean()` on a non-numeric weight column nor that of the division on a non-numeric months_as_member is modelled.
- `Training.EncodeCategorical`: when both category and time are missing, pandas raises one KeyError naming both; the model's `KeyError` carries only the name "category".
- `Training.StrAccessorAccepts`: pandas decides whether `.str` applies from the column's inferred dtype. The model uses the rule this gives for its cells: a column with cells but no string raises AttributeError. Boolean and bytes columns are not modelled.
