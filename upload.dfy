/** The decisions `process_uploaded_data` and `handle_upload` take around the
    classification: which reader parses the upload, which text encoding it
    uses, and when a parsed table is rejected. */
module Upload {
  import opened Frames
  import opened Columns
  import opened Inference
  import opened Classifier

  newtype byte = b: int | 0 <= b < 256

  /** The local-file-header signature of a zip container, "PK\x03\x04". */
  const ZipSignature: seq<byte> := [0x50, 0x4B, 0x03, 0x04]

  /** `decoded.startswith(b'PK\x03\x04')`. */
  predicate IsZipContainer(decoded: seq<byte>) {
    |decoded| >= |ZipSignature| && decoded[..|ZipSignature|] == ZipSignature
  }

  /** Only the first four bytes decide, so appending bytes never changes
      the decision. */
  lemma ZipDecisionIgnoresTail(decoded: seq<byte>, tail: seq<byte>)
    requires |decoded| >= 4
    ensures IsZipContainer(decoded + tail) <==> IsZipContainer(decoded)
  {
    assert (decoded + tail)[..4] == decoded[..4];
  }

  /** `detect_encoding`: the guesser's encoding when its confidence is above
      0.7, and "utf-8" otherwise. */
  function DetectEncoding(guess: string, confidence: real): string {
    if confidence > 0.7 then guess else "utf-8"
  }

  /** The cutoff is strict: a confidence of exactly 0.7 falls back to
      "utf-8", and a guess trusted at one confidence is trusted at every
      higher one. */
  lemma EncodingCutoff(guess: string, confidence: real, higher: real)
    requires confidence <= higher
    ensures DetectEncoding(guess, 0.7) == "utf-8"
    ensures DetectEncoding(guess, confidence) == guess ==> DetectEncoding(guess, higher) == guess
  {
  }

  datatype Reader = Workbook | DelimitedText(encoding: string)

  /** `pd.read_excel` for a zip container, otherwise `pd.read_csv` with the
      detected encoding. */
  function ChooseReader(decoded: seq<byte>, guess: string, confidence: real): Reader {
    if IsZipContainer(decoded) then Workbook
    else DelimitedText(DetectEncoding(guess, confidence))
  }

  /** An upload starting with the signature is read as a workbook whatever
      the guesser says; any other upload is read as text. */
  lemma ReaderChoice(decoded: seq<byte>, guess: string, confidence: real)
    ensures ChooseReader(decoded, guess, confidence).Workbook? <==> IsZipContainer(decoded)
    ensures !IsZipContainer(decoded) && confidence <= 0.7 ==>
      ChooseReader(decoded, guess, confidence) == DelimitedText("utf-8")
  {
  }

  /** pandas' `df.empty`: no rows or no columns. */
  predicate IsEmptyTable(columns: seq<string>, rows: seq<seq<Cell>>) {
    |rows| == 0 || |columns| == 0
  }

  /** From a parsed table to a classified frame: the labels are cleaned
      (`clean_column_names` on a copy), the value columns inferred, an empty
      table rejected, and `process_data` run on the rest. */
  method HandleUpload(columns: seq<string>, rows: seq<seq<Cell>>)
    returns (df: Frame?, valueColumns: seq<nat>, maxScore: int)
    requires Rectangular(columns, rows)
    ensures df == null <==> IsEmptyTable(columns, rows)
    ensures StrictlyIncreasing(valueColumns)
    ensures forall j :: 0 <= j < |valueColumns| ==> valueColumns[j] < |columns|
    ensures forall c :: 0 <= c < |columns| ==>
      (c in valueColumns <==> IsValueColumn(CleanColumnNames(columns), rows, c))
    ensures df != null ==>
      fresh(df) && df.Valid()
      && df.columns == CleanColumnNames(columns)
      && df.rows == NormalizeRows(rows, valueColumns)
      && maxScore == MaxScore(valueColumns)
      && |df.valueScore| == |df.engagementLevel| == |df.quadrant| == |df.size| == |rows|
      && (forall r :: 0 <= r < |rows| ==>
            IndicesIn(df.rows[r], valueColumns)
            && df.valueScore[r] == CountYes(df.rows[r], valueColumns)
            && df.engagementLevel[r] == EngagementOf(df.rows[r], FirstStageColumn(df.columns))
            && df.quadrant[r] == Classify(df.valueScore[r], df.engagementLevel[r], maxScore)
            && df.size[r] == BubbleSize(df.valueScore[r]))
      && (forall r :: 0 <= r < |rows| ==> df.quadrant[r] != Unclassified)
  {
    var cleaned := CleanColumnNames(columns);
    CleanColumnNamesCanonical(columns);
    valueColumns := InferValueColumns(cleaned, rows);
    if IsEmptyTable(columns, rows) {
      return null, valueColumns, 0;
    }
    forall j | 0 <= j < |valueColumns| ensures NameOccursOnce(cleaned, valueColumns[j]) {
      assert IsValueColumn(cleaned, rows, valueColumns[j]);
    }
    df := new Frame(cleaned, rows);
    maxScore := ProcessData(df, valueColumns);
    forall r | 0 <= r < |rows| ensures df.quadrant[r] != Unclassified {
      QuadrantsPartition(df.valueScore[r], df.engagementLevel[r], maxScore);
    }
  }
}
