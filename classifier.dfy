/** `process_data`: rewrites the value columns to Yes/No, then adds the
    `value_score`, `engagement_level`, `quadrant` and `size` columns. */
module Classifier {
  import opened Text
  import opened Frames
  import opened Engagement
  import opened Flags
  import opened Inference

  /** A row after every value column has been rewritten. */
  function NormalizedRow(row: seq<Cell>, valueColumns: seq<nat>): seq<Cell> {
    seq(|row|, i requires 0 <= i < |row| =>
      if i in valueColumns then Some(NormalizeFlag(row[i])) else row[i])
  }

  function NormalizeRows(rows: seq<seq<Cell>>, valueColumns: seq<nat>): seq<seq<Cell>> {
    seq(|rows|, r requires 0 <= r < |rows| => NormalizedRow(rows[r], valueColumns))
  }

  predicate HasColumn(rows: seq<seq<Cell>>, c: nat) {
    forall r :: 0 <= r < |rows| ==> c < |rows[r]|
  }

  /** One `df[col] = ...` assignment: column c rewritten in every row. */
  function RewriteColumn(rows: seq<seq<Cell>>, c: nat): seq<seq<Cell>>
    requires HasColumn(rows, c)
  {
    seq(|rows|, r requires 0 <= r < |rows| => rows[r][c := Some(NormalizeFlag(rows[r][c]))])
  }

  lemma RewriteRowStep(row: seq<Cell>, valueColumns: seq<nat>, k: nat)
    requires k < |valueColumns| && valueColumns[k] < |row|
    ensures var c := valueColumns[k];
      var before := NormalizedRow(row, valueColumns[..k]);
      before[c := Some(NormalizeFlag(before[c]))] == NormalizedRow(row, valueColumns[..k + 1])
  {
    var c := valueColumns[k];
    var before := NormalizedRow(row, valueColumns[..k]);
    var after := NormalizedRow(row, valueColumns[..k + 1]);
    assert valueColumns[..k + 1] == valueColumns[..k] + [c];
    NormalizeFlagIdempotent(row[c]);
    assert after[c] == Some(NormalizeFlag(before[c]));
    forall i | 0 <= i < |row| && i != c ensures before[i] == after[i] {
      assert (i in valueColumns[..k + 1]) == (i in valueColumns[..k]);
    }
  }

  /** Rewriting one more value column extends the rewritten prefix. */
  lemma RewriteStep(rows: seq<seq<Cell>>, valueColumns: seq<nat>, k: nat)
    requires k < |valueColumns| && HasColumn(rows, valueColumns[k])
    ensures HasColumn(NormalizeRows(rows, valueColumns[..k]), valueColumns[k])
    ensures RewriteColumn(NormalizeRows(rows, valueColumns[..k]), valueColumns[k])
         == NormalizeRows(rows, valueColumns[..k + 1])
  {
    var before := NormalizeRows(rows, valueColumns[..k]);
    forall r | 0 <= r < |rows|
      ensures RewriteColumn(before, valueColumns[k])[r] == NormalizeRows(rows, valueColumns[..k + 1])[r]
    {
      RewriteRowStep(rows[r], valueColumns, k);
    }
  }

  /** Classification normalises a table only once: a second run finds every
      value cell already rewritten. */
  lemma NormalizeRowsIdempotent(rows: seq<seq<Cell>>, valueColumns: seq<nat>)
    ensures NormalizeRows(NormalizeRows(rows, valueColumns), valueColumns)
         == NormalizeRows(rows, valueColumns)
  {
    var once := NormalizeRows(rows, valueColumns);
    forall r | 0 <= r < |rows|
      ensures NormalizedRow(once[r], valueColumns) == once[r]
    {
      forall i | 0 <= i < |rows[r]|
        ensures NormalizedRow(once[r], valueColumns)[i] == once[r][i]
      {
        NormalizeFlagIdempotent(rows[r][i]);
      }
    }
  }

  /** After the rewrite, a value cell is `Yes` or `No`, and `Yes` exactly when
      its original text is affirmative. */
  lemma ValueCellsAreFlags(rows: seq<seq<Cell>>, valueColumns: seq<nat>, r: nat, j: nat)
    requires r < |rows| && j < |valueColumns| && valueColumns[j] < |rows[r]|
    ensures NormalizeRows(rows, valueColumns)[r][valueColumns[j]] in {Some("Yes"), Some("No")}
    ensures NormalizeRows(rows, valueColumns)[r][valueColumns[j]] == Some("Yes")
        <==> IsAffirmative(rows[r][valueColumns[j]])
  {
  }

  predicate IndicesIn(row: seq<Cell>, valueColumns: seq<nat>) {
    forall j :: 0 <= j < |valueColumns| ==> valueColumns[j] < |row|
  }

  /** `value_score`: the number of value columns holding `Yes` in the row
      (the `{'Yes': 1, 'No': 0}` map summed along the row). */
  function CountYes(row: seq<Cell>, valueColumns: seq<nat>): (n: nat)
    requires IndicesIn(row, valueColumns)
    ensures n <= |valueColumns|
  {
    if valueColumns == [] then 0
    else
      var last := valueColumns[|valueColumns| - 1];
      CountYes(row, valueColumns[..|valueColumns| - 1]) + (if row[last] == Some("Yes") then 1 else 0)
  }

  /** The number of value columns whose original cell is affirmative. */
  function CountAffirmative(row: seq<Cell>, valueColumns: seq<nat>): nat
    requires IndicesIn(row, valueColumns)
  {
    if valueColumns == [] then 0
    else
      var last := valueColumns[|valueColumns| - 1];
      CountAffirmative(row, valueColumns[..|valueColumns| - 1]) + (if IsAffirmative(row[last]) then 1 else 0)
  }

  lemma {:induction false} CountYesOfNormalized(row: seq<Cell>, valueColumns: seq<nat>, counted: seq<nat>)
    requires IndicesIn(row, counted)
    requires forall j :: 0 <= j < |counted| ==> counted[j] in valueColumns
    ensures IndicesIn(NormalizedRow(row, valueColumns), counted)
    ensures CountYes(NormalizedRow(row, valueColumns), counted) == CountAffirmative(row, counted)
    decreases |counted|
  {
    if counted != [] {
      CountYesOfNormalized(row, valueColumns, counted[..|counted| - 1]);
    }
  }

  /** The score of a classified row counts the value columns whose original
      text was affirmative. */
  lemma ScoreCountsAffirmative(row: seq<Cell>, valueColumns: seq<nat>)
    requires IndicesIn(row, valueColumns)
    ensures IndicesIn(NormalizedRow(row, valueColumns), valueColumns)
    ensures CountYes(NormalizedRow(row, valueColumns), valueColumns)
         == CountAffirmative(row, valueColumns)
  {
    CountYesOfNormalized(row, valueColumns, valueColumns);
  }

  /** `len(value_columns) or 1`. */
  function MaxScore(valueColumns: seq<nat>): (m: nat)
    ensures 1 <= m && |valueColumns| <= m
  {
    if |valueColumns| > 0 then |valueColumns| else 1
  }

  /** Every score lies between 0 and the maximum score. */
  lemma ScoreWithinMax(row: seq<Cell>, valueColumns: seq<nat>)
    requires IndicesIn(row, valueColumns)
    ensures 0 <= CountYes(row, valueColumns) <= MaxScore(valueColumns)
  {
  }

  /** A column name that marks the sales stage. */
  predicate IsStageName(name: string) {
    Contains(name, "stage") || Contains(name, "subscription")
  }

  /** The first stage column in column order, if there is one. */
  function FirstStageColumn(columns: seq<string>): (c: Option<nat>)
    ensures c.Some? ==> (c.value < |columns| && IsStageName(columns[c.value])
      && forall j :: 0 <= j < c.value ==> !IsStageName(columns[j]))
    ensures c.None? ==> forall j :: 0 <= j < |columns| ==> !IsStageName(columns[j])
  {
    if |columns| == 0 then None
    else if IsStageName(columns[0]) then Some(0)
    else match FirstStageColumn(columns[1..])
      case None => None
      case Some(i) => Some(i + 1)
  }

  /** `next((col for col in df.columns if ...), None)`. The columns added by
      now (`value_score`) never match, so the search over the input columns
      gives the same answer. */
  method FindStageColumn(columns: seq<string>) returns (c: Option<nat>)
    ensures c == FirstStageColumn(columns)
  {
    var i := 0;
    while i < |columns|
      invariant 0 <= i <= |columns|
      invariant forall j :: 0 <= j < i ==> !IsStageName(columns[j])
    {
      if IsStageName(columns[i]) {
        return Some(i);
      }
      i := i + 1;
    }
    return None;
  }

  /** `engagement_level` of one row: 0 without a stage column, otherwise the
      level of the row's stage text. */
  function EngagementOf(row: seq<Cell>, stageColumn: Option<nat>): nat
    requires stageColumn.Some? ==> stageColumn.value < |row|
  {
    match stageColumn
    case None => 0
    case Some(c) => MapEngagementLevel(CellText(row[c]))
  }

  /** No keyword is shorter than four characters. */
  lemma ShortStageIsUntouched(stage: string)
    requires |stage| < 4
    ensures MapEngagementLevel(stage) == 0
  {
  }

  /** A stage column that is also a value column has been rewritten to
      Yes/No before the engagement mapping reads it, so every level is 0. */
  lemma StageValueColumnIsUntouched(row: seq<Cell>, valueColumns: seq<nat>, c: nat)
    requires c < |row| && c in valueColumns
    ensures EngagementOf(NormalizedRow(row, valueColumns), Some(c)) == 0
  {
    ShortStageIsUntouched(NormalizeFlag(row[c]));
  }

  /** `value_score >= max_score * 0.65`, in exact integer form. */
  predicate HighValue(score: int, maxScore: int) {
    20 * score >= 13 * maxScore
  }

  /** The integer form agrees with the threshold over the reals. */
  lemma HighValueMatchesThreshold(score: int, maxScore: int)
    ensures HighValue(score, maxScore) <==> score as real >= maxScore as real * 0.65
  {
  }

  /** `engagement_level >= 2.0`. */
  predicate HighEngagement(level: int) {
    level >= 2
  }

  /** `np.select`: the label of the first of the four conditions that holds,
      `Unclassified` if none does. */
  function Classify(score: int, level: int, maxScore: int): Quadrant {
    var highValue := HighValue(score, maxScore);
    var highEngagement := HighEngagement(level);
    if highValue && highEngagement then StrategicPartners
    else if !highValue && highEngagement then GrowthOpportunities
    else if highValue && !highEngagement then HighValueProspects
    else if !highValue && !highEngagement then BasicUsers
    else Unclassified
  }

  /** The four conditions are exclusive and exhaustive: each quadrant is
      exactly one combination of the two tests, and `Unclassified` is never
      assigned. */
  lemma QuadrantsPartition(score: int, level: int, maxScore: int)
    ensures Classify(score, level, maxScore) != Unclassified
    ensures Classify(score, level, maxScore) == StrategicPartners
        <==> HighValue(score, maxScore) && HighEngagement(level)
    ensures Classify(score, level, maxScore) == GrowthOpportunities
        <==> !HighValue(score, maxScore) && HighEngagement(level)
    ensures Classify(score, level, maxScore) == HighValueProspects
        <==> HighValue(score, maxScore) && !HighEngagement(level)
    ensures Classify(score, level, maxScore) == BasicUsers
        <==> !HighValue(score, maxScore) && !HighEngagement(level)
  {
  }

  /** `np.clip(x, lo, hi)`. */
  function Clip(x: int, lo: int, hi: int): (r: int)
    requires lo <= hi
    ensures lo <= r <= hi
    ensures lo <= x <= hi ==> r == x
  {
    var atLeast := if x < lo then lo else x;
    if atLeast > hi then hi else atLeast
  }

  /** The bubble size of a score. */
  function BubbleSize(score: int): (size: int)
    ensures 20 <= size <= 60
  {
    Clip(score * 12 + 25, 20, 60)
  }

  /** Larger scores never get smaller bubbles. */
  lemma BubbleSizeMonotone(a: int, b: int)
    requires a <= b
    ensures BubbleSize(a) <= BubbleSize(b)
  {
  }

  /** Scores are never negative, so no bubble is below 25. */
  lemma BubbleSizeAtLeast25(score: int)
    requires score >= 0
    ensures 25 <= BubbleSize(score) <= 60
  {
  }

  /** Without a stage column every row is untouched. */
  lemma NoStageColumnMeansUntouched(columns: seq<string>, row: seq<Cell>)
    requires forall j :: 0 <= j < |columns| ==> !IsStageName(columns[j])
    ensures EngagementOf(row, FirstStageColumn(columns)) == 0
  {
  }

  /** What a classified row satisfies: its score counts the affirmative
      value cells and lies within the maximum, its bubble size is between 25
      and 60, and it lands in one of the four quadrants. */
  lemma ClassifiedRow(row: seq<Cell>, valueColumns: seq<nat>, level: int)
    requires IndicesIn(row, valueColumns)
    ensures IndicesIn(NormalizedRow(row, valueColumns), valueColumns)
    ensures CountYes(NormalizedRow(row, valueColumns), valueColumns) == CountAffirmative(row, valueColumns)
    ensures CountAffirmative(row, valueColumns) <= MaxScore(valueColumns)
    ensures 25 <= BubbleSize(CountAffirmative(row, valueColumns)) <= 60
    ensures Classify(CountAffirmative(row, valueColumns), level, MaxScore(valueColumns)) != Unclassified
  {
    ScoreCountsAffirmative(row, valueColumns);
    BubbleSizeAtLeast25(CountAffirmative(row, valueColumns));
    QuadrantsPartition(CountAffirmative(row, valueColumns), level, MaxScore(valueColumns));
  }

  /** `process_data(df, value_columns)`: rewrites the value columns in place,
      adds the four derived columns and returns `max_score`. */
  method ProcessData(df: Frame, valueColumns: seq<nat>) returns (maxScore: int)
    requires df.Valid()
    requires forall j :: 0 <= j < |valueColumns| ==> valueColumns[j] < |df.columns|
    // a repeated value-column name makes `df[col].astype(str).str` raise, and
    // nothing between here and `handle_upload` catches it
    requires forall j :: 0 <= j < |valueColumns| ==> NameOccursOnce(df.columns, valueColumns[j])
    modifies df
    ensures df.Valid() && df.columns == old(df.columns)
    ensures df.rows == NormalizeRows(old(df.rows), valueColumns)
    ensures maxScore == MaxScore(valueColumns)
    ensures |df.valueScore| == |df.engagementLevel| == |df.quadrant| == |df.size| == |df.rows|
    ensures forall r :: 0 <= r < |df.rows| ==>
      IndicesIn(df.rows[r], valueColumns)
      && df.valueScore[r] == CountYes(df.rows[r], valueColumns)
      && df.engagementLevel[r] == EngagementOf(df.rows[r], FirstStageColumn(df.columns))
      && df.quadrant[r] == Classify(df.valueScore[r], df.engagementLevel[r], maxScore)
      && df.size[r] == BubbleSize(df.valueScore[r])
  {
    ghost var original := df.rows;
    forall r | 0 <= r < |original| ensures NormalizedRow(original[r], valueColumns[..0]) == original[r] {
    }
    for k := 0 to |valueColumns|
      invariant df.columns == old(df.columns)
      invariant df.rows == NormalizeRows(original, valueColumns[..k])
    {
      RewriteStep(original, valueColumns, k);
      df.rows := RewriteColumn(df.rows, valueColumns[k]);
    }
    assert valueColumns[..|valueColumns|] == valueColumns;
    var rows := df.rows;
    df.valueScore := seq(|rows|, r requires 0 <= r < |rows| => CountYes(rows[r], valueColumns));
    maxScore := if |valueColumns| > 0 then |valueColumns| else 1;
    var stageColumn := FindStageColumn(df.columns);
    df.engagementLevel := seq(|rows|, r requires 0 <= r < |rows| => EngagementOf(rows[r], stageColumn));
    var scores, levels := df.valueScore, df.engagementLevel;
    df.quadrant := seq(|rows|, r requires 0 <= r < |rows| => Classify(scores[r], levels[r], maxScore));
    df.size := seq(|rows|, r requires 0 <= r < |rows| => BubbleSize(scores[r]));
  }
}
