/** `clean_column_names`: the canonical internal form of a column header. */
module Columns {
  import opened Text

  /** `col.strip().lower().replace(' ', '_')`. */
  function CleanName(header: string): string {
    ReplaceSpaces(Lower(Strip(header)))
  }

  /** The list comprehension over `df.columns`. */
  function CleanColumnNames(columns: seq<string>): seq<string> {
    seq(|columns|, i requires 0 <= i < |columns| => CleanName(columns[i]))
  }

  /** A canonical name: no whitespace at either end, no space character and
      no upper-case ASCII letter. */
  predicate IsCanonicalName(name: string) {
    BlankFreeEnds(name) && NoUpper(name) && forall i :: 0 <= i < |name| ==> name[i] != ' '
  }

  /** No whitespace at either end. */
  predicate BlankFreeEnds(s: string) {
    s == [] || (!IsSpace(s[0]) && !IsSpace(s[|s| - 1]))
  }

  predicate NoUpper(s: string) {
    forall i :: 0 <= i < |s| ==> !('A' <= s[i] <= 'Z')
  }

  lemma LowerKeepsEnds(s: string)
    requires BlankFreeEnds(s)
    ensures BlankFreeEnds(Lower(s)) && NoUpper(Lower(s))
  {
    if s != [] {
      LowerKeepsSpace(s[0]);
      LowerKeepsSpace(s[|s| - 1]);
    }
  }

  lemma ReplaceSpacesKeepsEnds(s: string)
    requires BlankFreeEnds(s) && NoUpper(s)
    ensures IsCanonicalName(ReplaceSpaces(s))
  {
    var r := ReplaceSpaces(s);
    assert IsSpace(' ');
    if s != [] {
      assert r[0] == s[0] && r[|r| - 1] == s[|s| - 1];
    }
  }

  lemma CleanNameIsCanonical(header: string)
    ensures IsCanonicalName(CleanName(header))
  {
    var s := Strip(header);
    LowerKeepsEnds(s);
    ReplaceSpacesKeepsEnds(Lower(s));
  }

  /** A canonical name is left as it is. */
  lemma CanonicalNameIsFixed(name: string)
    requires IsCanonicalName(name)
    ensures CleanName(name) == name
  {
    assert StripLeft(name) == name;
    assert StripRight(name) == name;
    assert Lower(name) == name;
    assert ReplaceSpaces(name) == name;
  }

  /** Cleaning keeps the number and order of the columns and makes every
      name canonical. */
  lemma CleanColumnNamesCanonical(columns: seq<string>)
    ensures |CleanColumnNames(columns)| == |columns|
    ensures forall i :: 0 <= i < |columns| ==>
      CleanColumnNames(columns)[i] == CleanName(columns[i])
      && IsCanonicalName(CleanColumnNames(columns)[i])
  {
    forall i | 0 <= i < |columns| ensures IsCanonicalName(CleanName(columns[i])) {
      CleanNameIsCanonical(columns[i]);
    }
  }

  /** Cleaning twice is cleaning once. */
  lemma CleanColumnNamesIdempotent(columns: seq<string>)
    ensures CleanColumnNames(CleanColumnNames(columns)) == CleanColumnNames(columns)
  {
    var once := CleanColumnNames(columns);
    forall i | 0 <= i < |once| ensures CleanName(once[i]) == once[i] {
      CleanNameIsCanonical(columns[i]);
      CanonicalNameIsFixed(once[i]);
    }
  }
}
