/** The loop of `process_uploaded_data` that picks the value (yes/no) columns
    of a cleaned table. */
module Inference {
  import opened Text
  import opened Frames

  /** The eight words a value column may hold, once trimmed and lowercased. */
  const Vocabulary: set<string> := {"yes", "no", "y", "n", "1", "0", "true", "false"}

  /** A cell `dropna()` keeps only when it is present, and then it must fold
      into the vocabulary. */
  predicate IsFlagCell(c: Cell) {
    c.None? || Lower(Strip(c.value)) in Vocabulary
  }

  /** `df_clean[col]` is a single column only when no other column has the
      same name; with a repeated name it is a frame, whose missing `.str`
      accessor raises, and the bare `except` skips the column. */
  predicate NameOccursOnce(columns: seq<string>, c: nat)
    requires c < |columns|
  {
    forall j :: 0 <= j < |columns| && j != c ==> columns[j] != columns[c]
  }

  /** Every non-missing cell of column c is in the vocabulary. */
  predicate AllFlagCells(rows: seq<seq<Cell>>, c: nat)
    requires forall r :: 0 <= r < |rows| ==> c < |rows[r]|
  {
    forall r :: 0 <= r < |rows| ==> IsFlagCell(rows[r][c])
  }

  /** The selection rule for one column. */
  predicate IsValueColumn(columns: seq<string>, rows: seq<seq<Cell>>, c: nat)
    requires Rectangular(columns, rows) && c < |columns|
  {
    NameOccursOnce(columns, c) && AllFlagCells(rows, c)
  }

  predicate StrictlyIncreasing(s: seq<nat>) {
    forall i, j :: 0 <= i < j < |s| ==> s[i] < s[j]
  }

  /** The `for col in df_clean.columns` loop: appends, in table order, each
      column that passes the rule and skips the rest. */
  method InferValueColumns(columns: seq<string>, rows: seq<seq<Cell>>)
    returns (valueColumns: seq<nat>)
    requires Rectangular(columns, rows)
    ensures StrictlyIncreasing(valueColumns)
    ensures forall j :: 0 <= j < |valueColumns| ==> valueColumns[j] < |columns|
    ensures forall c :: 0 <= c < |columns| ==>
      (c in valueColumns <==> IsValueColumn(columns, rows, c))
  {
    valueColumns := [];
    var c := 0;
    while c < |columns|
      invariant 0 <= c <= |columns|
      invariant StrictlyIncreasing(valueColumns)
      invariant forall j :: 0 <= j < |valueColumns| ==> valueColumns[j] < c
      invariant forall k :: 0 <= k < c ==>
        (k in valueColumns <==> IsValueColumn(columns, rows, k))
    {
      if !NameOccursOnce(columns, c) {
        // the lookup raised: `except: continue`
        c := c + 1;
        continue;
      }
      if AllFlagCells(rows, c) {
        valueColumns := valueColumns + [c];
      }
      c := c + 1;
    }
  }

  /** A column with no present cell is selected, vacuously, when its name is
      not repeated. */
  lemma EmptyColumnIsValueColumn(columns: seq<string>, rows: seq<seq<Cell>>, c: nat)
    requires Rectangular(columns, rows) && c < |columns|
    requires NameOccursOnce(columns, c)
    requires forall r :: 0 <= r < |rows| ==> rows[r][c].None?
    ensures IsValueColumn(columns, rows, c)
  {
  }
}
