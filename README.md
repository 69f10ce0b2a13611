# Sales value matrix: the record-classification pipeline in Dafny

The sales value matrix is a dashboard. It takes an uploaded spreadsheet of agency
records and places each record on a value-versus-engagement grid. This project models
the pipeline behind that grid, from `sales_value_matrix.py`:

- **Reader choice.** A zip signature selects the workbook reader. Otherwise the text
  reader is used, with an encoding chosen by a confidence cutoff (`Upload`).
- **Column-name cleaning** (`clean_column_names`, module `Columns`).
- **Value-column inference.** This is the loop in `process_uploaded_data` that selects
  the yes/no columns (`Inference`).
- **Engagement mapping** (`map_engagement_level`, module `Engagement`).
- **Classification** (`process_data`, modules `Flags` and `Classifier`). It rewrites
  each value cell to `Yes`/`No`, counts the `Yes` cells into `value_score`, computes
  `max_score`, finds the stage column, assigns `engagement_level` and `quadrant`, and
  sets the bubble `size`.
- **The upload handler's rejection of an empty table** (`HandleUpload`).

Python's string operations are in module `Text`: `strip()` over the full `isspace()`
set, `lower()`, `replace(' ', '_')` and substring `in`. A DataFrame is the class
`Frames.Frame`. It holds the column labels and the rows. Each cell is `None` for a
missing value, or else the text `str()` gives for the parsed value. The frame also holds
the four columns that `process_data` adds. `ProcessData` mutates a frame as
`process_data` does. Its postcondition gives the new frame in terms of specification
functions (`NormalizeRows`, `CountYes`, `FirstStageColumn`, `EngagementOf`, `Classify`,
`BubbleSize`). The lemmas state what the source promises about those functions.

Modelling choices that follow the code:

- **The value threshold is exact.** The source tests `value_score >= max_score * 0.65`
  in floating point. The model tests `20 * score >= 13 * max_score`. The two can differ
  only when `13 * max_score / 20` is a whole number, that is, when `max_score` is a
  multiple of 20. In that case the model assumes that the product rounds to exactly that
  whole number. `HighValueMatchesThreshold` ties the integer form to the threshold over
  the reals.
- **The encoding confidence is a `real`.** The source compares it with `> 0.7`. No
  double lies between the double nearest 0.7 and 0.7 itself, so comparing a double
  confidence with the real 0.7 gives the same answer.
- **A repeated column name.** After cleaning, two labels can share a name. Then
  `df_clean[col]` is a frame and not a column, the `.str` access raises, and the bare
  `except` skips the column. So a column is a value column only when its name occurs
  once (`Inference.NameOccursOnce`).
- **The encoding cutoff.** `detect_encoding` keeps a guess only when its confidence is
  strictly *above* 0.7. So a confidence of exactly 0.7 gives `utf-8`
  (`EncodingCutoff`).
- **An empty table.** `handle_upload` tests `df.empty`. That holds for a table with no
  rows and also for a table with no columns (`IsEmptyTable`).
- **A stage column that is also a value column.** It has already been rewritten to
  `Yes`/`No` when the engagement mapping reads it. So every row's level is 0
  (`StageValueColumnIsUntouched`).

## Model

| member | source | states |
|---|---|---|
| Text.IsSpace | sales_value_matrix.py:34 | defines the characters `str.strip()` removes: Python's `str.isspace()` set |
| Text.StripLeft | sales_value_matrix.py:34 | the result is a suffix of the input, starts with a non-whitespace character, and everything dropped is whitespace |
| Text.StripRight | sales_value_matrix.py:34 | the result is a prefix of the input, ends with a non-whitespace character, and everything dropped is whitespace |
| Text.Strip | sales_value_matrix.py:34 | a stripped string is empty or starts and ends with a non-whitespace character, and it is no longer than the input |
| Text.Lower | sales_value_matrix.py:34 | defines `lower()` character by character: `A`-`Z` become `a`-`z` and every other character is kept; `Text.LowerKeepsSpace` and `Text.StripLower` state its properties |
| Text.ReplaceSpaces | sales_value_matrix.py:34 | `replace(' ', '_')` keeps the length, turns every space into `_`, leaves no space character, and changes no other character |
| Text.Contains | sales_value_matrix.py:39-44 | defines the `in` test on strings; `Text.ContainsIffOccurs` states what it means |
| Text.StripSpan | sales_value_matrix.py:34 | the input is its stripped form with only whitespace before and after it |
| Text.StripLower | sales_value_matrix.py:39 | trimming and lowercasing commute |
| Text.ContainsIffOccurs | sales_value_matrix.py:40-44 | the `in` test holds exactly when the word occurs at some offset of the text |
| Text.ContainsStrip | sales_value_matrix.py:39-44 | stripping never changes whether a keyword (non-blank at both ends) occurs |
| Text.ContainsFolded | sales_value_matrix.py:39-44 | the trimmed lowercase stage contains a keyword exactly when the lowercase stage does |
| Columns.CleanName | sales_value_matrix.py:34 | defines one label's cleaning as strip, then lower, then spaces to underscores; the lemmas below state its properties |
| Columns.CleanColumnNames | sales_value_matrix.py:32-35 | defines the cleaning of every label, in order; the lemmas below state its properties |
| Columns.CleanNameIsCanonical | sales_value_matrix.py:34 | a cleaned name has no whitespace at either end, no space character and no upper-case ASCII letter |
| Columns.CanonicalNameIsFixed | sales_value_matrix.py:34 | cleaning leaves an already canonical name unchanged |
| Columns.CleanColumnNamesCanonical | sales_value_matrix.py:32-35 | cleaning keeps the number and order of the columns, and every name becomes canonical |
| Columns.CleanColumnNamesIdempotent | sales_value_matrix.py:32-35 | cleaning the names twice gives the same names as cleaning them once |
| Engagement.LevelOf | sales_value_matrix.py:40-45 | the ordered keyword tests always give a level from 0 to 4 |
| Engagement.MapEngagementLevel | sales_value_matrix.py:37-45 | every stage maps to a level from 0 to 4 |
| Engagement.EngagementByKeywords | sales_value_matrix.py:39-45 | the level depends only on the keywords found in the lowercase stage; surrounding whitespace is irrelevant |
| Engagement.EngagementIgnoresCase | sales_value_matrix.py:39 | stages that agree up to ASCII case get the same level |
| Engagement.EngagementIgnoresPadding | sales_value_matrix.py:39 | adding whitespace around a stage never changes its level |
| Engagement.UntouchWins | sales_value_matrix.py:40 | a stage containing `untouch`, in any case, maps to 0 whatever other keywords it holds |
| Engagement.FreeBeatsLaterKeywords | sales_value_matrix.py:41-44 | a stage containing `free` and not `untouch` maps to 1, even if it also contains `direct`, `lite` or `full` |
| Engagement.NoKeywordIsUntouched | sales_value_matrix.py:45 | a stage with none of the keywords maps to the default 0 |
| Inference.IsFlagCell | sales_value_matrix.py:71-72 | defines a cell that passes the test: after `str`, strip and lower it is one of yes, no, y, n, 1, 0, true, false |
| Inference.NameOccursOnce | sales_value_matrix.py:69-74 | defines a column whose name no other column shares, the case in which `df_clean[col]` is a single column and the lookup does not raise |
| Inference.IsValueColumn | sales_value_matrix.py:69-75 | defines a value column: its name occurs once and every non-missing cell passes the test |
| Inference.InferValueColumns | sales_value_matrix.py:67-75 | in table order, selects exactly the columns whose name occurs once and whose non-missing cells all fold into the eight-word vocabulary |
| Inference.EmptyColumnIsValueColumn | sales_value_matrix.py:70-72 | a column with no present cell is selected, vacuously, when its name occurs once |
| Flags.IsAffirmative | sales_value_matrix.py:86-87 | defines an affirmative cell: after `str`, strip and lower it is yes, y, 1 or true |
| Flags.NormalizeFlag | sales_value_matrix.py:85-87 | every rewritten value cell is exactly `Yes` or `No` |
| Flags.LabelsFoldBack | sales_value_matrix.py:86-87 | `Yes` folds to an affirmative word and `No` does not |
| Flags.NormalizeFlagIdempotent | sales_value_matrix.py:85-87 | rewriting an already rewritten value cell changes nothing |
| Frames.CellText | sales_value_matrix.py:86 | defines `astype(str)` on a cell: a missing value becomes `nan`, any other cell keeps its text |
| Classifier.NormalizedRow | sales_value_matrix.py:85-87 | defines one row after the rewrite of the given value columns |
| Classifier.NormalizeRows | sales_value_matrix.py:85-87 | defines the table after the rewrite of the given value columns |
| Classifier.RewriteColumn | sales_value_matrix.py:86-87 | defines one `df[col] = ...` pass over every row |
| Frames.Quadrant.Label | sales_value_matrix.py:111-118 | defines the text stored in `quadrant` for each quadrant, `Unclassified` being the default |
| Classifier.RewriteStep | sales_value_matrix.py:85-87 | each `df[col] = ...` pass extends the set of rewritten value columns by one column, even when a column is listed twice |
| Classifier.NormalizeRowsIdempotent | sales_value_matrix.py:84-87 | normalising an already normalised table gives the same table, so the rows, and hence every derived column, are unchanged |
| Classifier.ValueCellsAreFlags | sales_value_matrix.py:85-87 | after the rewrite, each value cell is `Yes` or `No`, and it is `Yes` exactly when its original text trims and lowercases to yes, y, 1 or true |
| Classifier.CountYes | sales_value_matrix.py:90 | `value_score` never exceeds the number of value columns |
| Classifier.ScoreCountsAffirmative | sales_value_matrix.py:85-90 | a row's `value_score` equals the number of its value cells whose original text is affirmative |
| Classifier.MaxScore | sales_value_matrix.py:91 | `max_score` is at least 1 and at least the number of value columns |
| Classifier.ScoreWithinMax | sales_value_matrix.py:90-91 | every score lies between 0 and `max_score` |
| Classifier.IsStageName | sales_value_matrix.py:94 | defines a stage column's name: it contains `stage` or `subscription` |
| Classifier.FirstStageColumn | sales_value_matrix.py:94 | gives the first column whose name contains `stage` or `subscription`, and gives none only when no name does |
| Classifier.FindStageColumn | sales_value_matrix.py:94 | the search loop returns that first stage column |
| Classifier.EngagementOf | sales_value_matrix.py:94-98 | defines a row's `engagement_level`: the mapped stage cell when there is a stage column, else 0 |
| Classifier.NoStageColumnMeansUntouched | sales_value_matrix.py:94-98 | with no stage column, every row's engagement level is 0 |
| Classifier.ShortStageIsUntouched | sales_value_matrix.py:40-45 | a stage shorter than four characters holds no keyword, so it maps to 0 |
| Classifier.StageValueColumnIsUntouched | sales_value_matrix.py:85-96 | a stage column that is also a value column gives level 0 in every row, because it is rewritten first |
| Classifier.HighValue | sales_value_matrix.py:101 | defines a high-value row: its score reaches 65% of `max_score` |
| Classifier.HighEngagement | sales_value_matrix.py:102 | defines a high-engagement row: its level is at least 2 |
| Classifier.Classify | sales_value_matrix.py:104-118 | defines `np.select` over the four conditions in order, with `Unclassified` as the default; `Classifier.QuadrantsPartition` states what it means |
| Classifier.HighValueMatchesThreshold | sales_value_matrix.py:101 | the integer test `20*score >= 13*max` agrees with `score >= max * 0.65` over the reals |
| Classifier.QuadrantsPartition | sales_value_matrix.py:104-118 | the four conditions are exclusive and exhaustive; each quadrant matches exactly one combination of high or low value and high or low engagement; `Unclassified` is never assigned |
| Classifier.Clip | sales_value_matrix.py:119 | the clipped value lies within the bounds, and a value already inside them is unchanged |
| Classifier.BubbleSize | sales_value_matrix.py:119 | every bubble size lies in [20, 60] |
| Classifier.BubbleSizeMonotone | sales_value_matrix.py:119 | bubble size never decreases as the score grows |
| Classifier.BubbleSizeAtLeast25 | sales_value_matrix.py:119 | for a score of 0 or more, the size lies in [25, 60] |
| Classifier.ClassifiedRow | sales_value_matrix.py:90-119 | each classified row has a score that counts its affirmative cells and is at most `max_score`, a size in [25, 60], and one of the four quadrants |
| Classifier.ProcessData | sales_value_matrix.py:82-121 | given value columns whose names occur once (a repeated name makes the `.str` access raise, uncaught), rewrites those columns in place, adds `value_score`, `engagement_level`, `quadrant` and `size` for every row as the functions above define them, and returns `max_score` |
| Upload.IsZipContainer | sales_value_matrix.py:57 | defines the test `decoded.startswith(b'PK\x03\x04')` |
| Upload.ZipDecisionIgnoresTail | sales_value_matrix.py:57 | only the first four bytes decide whether an upload is a zip container |
| Upload.DetectEncoding | sales_value_matrix.py:30 | defines `detect_encoding`: the guess when its confidence is above 0.7, else `utf-8` |
| Upload.EncodingCutoff | sales_value_matrix.py:30 | a confidence of exactly 0.7 falls back to `utf-8`, and a guess kept at one confidence is kept at every higher one |
| Upload.ChooseReader | sales_value_matrix.py:57-61 | defines the reader choice: the workbook reader for a zip container, else the text reader with the detected encoding |
| Upload.ReaderChoice | sales_value_matrix.py:57-61 | the workbook reader is used exactly for uploads that start with `PK\x03\x04`; any other upload is read as text, in `utf-8` when the confidence is at most 0.7 |
| Upload.IsEmptyTable | sales_value_matrix.py:203 | defines `df.empty`: no rows or no columns |
| Upload.HandleUpload | sales_value_matrix.py:201-207 | an empty table (no rows or no columns) is rejected and nothing is classified; any other table is cleaned and its value columns are inferred, in table order and without repeats, and then every row gets the rewritten value cells, score, engagement level, quadrant and size that `process_data` defines, with no row left `Unclassified` |

## Left out

- The Dash application is not modelled: its layout, stores, callbacks, Plotly figures,
  filters, the JSON round-trip through `to_json`/`read_json`, the display-name mapping
  and the detail panel. They are user-interface code that only displays the classified
  table.
- `reset_filters` refers to a global `group_options` that is never defined. It is user
  interface code and is not modelled.
- Parsing is not modelled: the `contents.split(',')` step, base64 decoding,
  `pd.read_excel` and `pd.read_csv`. These are library code. The model takes the parsed
  table as its input.
- How pandas infers column types is not modelled. Each cell is taken to be the text
  `str()` gives for the parsed value. For example, a 1/0 column with missing values is
  parsed as floats, so its cells are "1.0" and "0.0".
- The statistical encoding guesser (`chardet.detect`) is not modelled. Its guess and
  its confidence are parameters. A guess of `None` is not modelled.
- The error tuples of `process_uploaded_data` and the messages of `handle_upload` are
  not modelled. Only the rejection of an empty table is modelled.
- `Text.Lower`: lowers only ASCII `A`-`Z`. Python's `str.lower()` also maps non-ASCII
  letters.
- Column labels are assumed to be strings. In the source, a label that is not a string
  makes `.strip()` raise, and the upload then fails with an error.
- `Inference.InferValueColumns`: the only per-column exception it models is the one
  raised for a repeated column name.
- `Classifier.ProcessData`: when the first stage column's name is repeated (for
  example the labels "Sales Stage" and "sales_stage", which both clean to
  `sales_stage`), the source raises at line 96: the mapping is applied to each of the
  repeated columns as a whole, and the result cannot be aligned with the rows. Nothing
  catches that error, so the source classifies no such table. The model instead reads
  the first such column as though its name occurred once.
- `Classifier.ProcessData`: the four derived columns are separate fields of the frame.
  In the source they are written into the frame's own columns. So an input column that
  already has one of these names is overwritten there, and this is not modelled.
- The value threshold is compared in exact integers, not in floating point. See the
  notes on the value threshold above.
