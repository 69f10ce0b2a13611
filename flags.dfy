/** The rewrite of a value cell in `process_data` to the label `Yes` or `No`. */
module Flags {
  import opened Text
  import opened Frames

  /** The words a value cell must fold to in order to become `Yes`. */
  const Affirmative: set<string> := {"yes", "y", "1", "true"}

  predicate IsAffirmative(c: Cell) {
    Lower(Strip(CellText(c))) in Affirmative
  }

  /** The rewrite of one value cell: its text trimmed and lowercased, then
      `Yes` for an affirmative word and `No` for anything else, a missing
      cell ("nan") included. */
  function NormalizeFlag(c: Cell): (flag: string)
    ensures flag == "Yes" || flag == "No"
  {
    if IsAffirmative(c) then "Yes" else "No"
  }

  lemma LowerLabels()
    ensures Lower("Yes") == "yes" && Lower("No") == "no"
  {
    assert LowerChar('Y') == 'y' && LowerChar('N') == 'n';
  }

  lemma FoldLabels()
    ensures Lower(Strip("Yes")) == "yes" && Lower(Strip("No")) == "no"
  {
    StripFixed("Yes");
    StripFixed("No");
    LowerLabels();
  }

  /** The two labels fold back to the words that produced them. */
  lemma LabelsFoldBack()
    ensures IsAffirmative(Some("Yes")) && !IsAffirmative(Some("No"))
  {
    FoldLabels();
    assert "yes" in Affirmative && "no" !in Affirmative;
  }

  /** Rewriting an already rewritten cell changes nothing. */
  lemma NormalizeFlagIdempotent(c: Cell)
    ensures NormalizeFlag(Some(NormalizeFlag(c))) == NormalizeFlag(c)
  {
    LabelsFoldBack();
  }
}
