/** `map_engagement_level`: a free-text sales stage becomes an engagement
    level from 0 to 4 by ordered keyword tests, the first match winning. */
module Engagement {
  import opened Text

  /** The keyword tests, in order, on already trimmed lowercase text. */
  function LevelOf(text: string): (level: nat)
    ensures level <= 4
  {
    if Contains(text, "untouch") then 0
    else if Contains(text, "free") then 1
    else if Contains(text, "direct") || Contains(text, "da-d") then 2
    else if Contains(text, "lite") then 3
    else if Contains(text, "full") then 4
    else 0
  }

  /** `stage = str(stage).strip().lower()` followed by the keyword tests. */
  function MapEngagementLevel(stage: string): (level: nat)
    ensures level <= 4
  {
    LevelOf(Lower(Strip(stage)))
  }

  /** Two texts holding the same keywords get the same level. */
  lemma SameKeywordsSameLevel(a: string, b: string)
    requires Contains(a, "untouch") <==> Contains(b, "untouch")
    requires Contains(a, "free") <==> Contains(b, "free")
    requires Contains(a, "direct") <==> Contains(b, "direct")
    requires Contains(a, "da-d") <==> Contains(b, "da-d")
    requires Contains(a, "lite") <==> Contains(b, "lite")
    requires Contains(a, "full") <==> Contains(b, "full")
    ensures LevelOf(a) == LevelOf(b)
  {
  }

  /** Trimming never matters: the level is that of the lowercase text. */
  lemma EngagementByKeywords(stage: string)
    ensures MapEngagementLevel(stage) == LevelOf(Lower(stage))
  {
    ContainsFolded(stage, "untouch");
    ContainsFolded(stage, "free");
    ContainsFolded(stage, "direct");
    ContainsFolded(stage, "da-d");
    ContainsFolded(stage, "lite");
    ContainsFolded(stage, "full");
    SameKeywordsSameLevel(Lower(Strip(stage)), Lower(stage));
  }

  /** Stages that agree up to ASCII case get the same level. */
  lemma EngagementIgnoresCase(stage: string, other: string)
    requires Lower(stage) == Lower(other)
    ensures MapEngagementLevel(stage) == MapEngagementLevel(other)
  {
    EngagementByKeywords(stage);
    EngagementByKeywords(other);
  }

  /** Whitespace around already lowercase text never changes its level. */
  lemma LevelOfPadded(p: string, text: string, q: string)
    requires AllSpace(p) && AllSpace(q)
    ensures LevelOf(p + text + q) == LevelOf(text)
  {
    ContainsPadded(p, text, q, "untouch");
    ContainsPadded(p, text, q, "free");
    ContainsPadded(p, text, q, "direct");
    ContainsPadded(p, text, q, "da-d");
    ContainsPadded(p, text, q, "lite");
    ContainsPadded(p, text, q, "full");
    SameKeywordsSameLevel(p + text + q, text);
  }

  /** Surrounding whitespace never changes the level. */
  lemma EngagementIgnoresPadding(p: string, stage: string, q: string)
    requires AllSpace(p) && AllSpace(q)
    ensures MapEngagementLevel(p + stage + q) == MapEngagementLevel(stage)
  {
    EngagementByKeywords(p + stage + q);
    EngagementByKeywords(stage);
    LowerAppend(p + stage, q);
    LowerAppend(p, stage);
    LowerAllSpace(p);
    LowerAllSpace(q);
    LevelOfPadded(p, Lower(stage), q);
  }

  /** `untouch` is tested first, so it wins over every other keyword. */
  lemma UntouchWins(stage: string)
    requires Contains(Lower(stage), "untouch")
    ensures MapEngagementLevel(stage) == 0
  {
    EngagementByKeywords(stage);
  }

  /** `free` is tested before `direct`, `lite` and `full`. */
  lemma FreeBeatsLaterKeywords(stage: string)
    requires Contains(Lower(stage), "free") && !Contains(Lower(stage), "untouch")
    ensures MapEngagementLevel(stage) == 1
  {
    EngagementByKeywords(stage);
  }

  /** A stage holding none of the keywords counts as untouched. */
  lemma NoKeywordIsUntouched(stage: string)
    requires !Contains(Lower(stage), "untouch") && !Contains(Lower(stage), "free")
    requires !Contains(Lower(stage), "direct") && !Contains(Lower(stage), "da-d")
    requires !Contains(Lower(stage), "lite") && !Contains(Lower(stage), "full")
    ensures MapEngagementLevel(stage) == 0
  {
    EngagementByKeywords(stage);
  }
}
