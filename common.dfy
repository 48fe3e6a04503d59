/** Values shared by the inference-time encoder (app.py) and the training-time
    preprocessing script (scripts/data_preprocessing.py). */
module Common {

  datatype Option<+T> = None | Some(value: T)

  datatype Result<+T, +E> = Ok(value: T) | Err(error: E)

  /** A value held by a Python dict or by one cell of a pandas frame.
      NaN stands for pandas' missing value. */
  datatype Cell = Int(i: int) | Real(r: real) | Text(s: string) | NaN

  /** One row of a frame, or the one-row frame built from a dict: column name to value. */
  type Row = map<string, Cell>

  /** The Python exceptions the core raises (and, in app.py, catches). */
  datatype Failure =
    | KeyError(key: string)
    | ValueError      // int() of a string that is not a decimal integer
    | OverflowError   // an integer outside the 64-bit range of astype(int)
    | AttributeError  // the `.str` accessor used on a column that holds no string

  /** The value of a dummy (one-hot) column. pandas stores it as a boolean or
      uint8; the classifier reads it as the number 0 or 1. */
  function Indicator(b: bool): (c: Cell)
    ensures c == Int(0) || c == Int(1)
    ensures c == Int(1) <==> b
  {
    if b then Int(1) else Int(0)
  }

  /** The name pandas.get_dummies gives the column of `level` when it encodes
      the column `prefix` (the default separator is "_"). */
  function DummyName(prefix: string, level: string): (name: string)
  {
    prefix + "_" + level
  }

  /** The level a dummy column name stands for: the inverse of DummyName. */
  function LevelOf(prefix: string, name: string): (level: string)
  {
    if |name| > |prefix| then name[|prefix| + 1..] else name
  }

  lemma LevelOfDummyName(prefix: string, level: string)
    ensures LevelOf(prefix, DummyName(prefix, level)) == level
  {
    assert DummyName(prefix, level)[|prefix| + 1..] == level;
  }

  /** Two levels share a dummy column only if they are the same level. */
  lemma DummyNameInjective(prefix: string, a: string, b: string)
    ensures DummyName(prefix, a) == DummyName(prefix, b) <==> a == b
  {
    if DummyName(prefix, a) == DummyName(prefix, b) {
      LevelOfDummyName(prefix, a);
      LevelOfDummyName(prefix, b);
    }
  }

  /** A dummy name begins with its prefix and the separator. */
  lemma DummyNameHead(prefix: string, level: string)
    ensures |DummyName(prefix, level)| > |prefix|
    ensures DummyName(prefix, level)[..|prefix| + 1] == prefix + "_"
  {
  }
}
