/**
 * The cheap pre-filter run before a post is sent to the scorer
 * (`is_worth_analyzing`): no brand name, no news or tragedy marker, enough
 * comments, and a title short enough for a shirt.
 */
module PreFilter {
  import opened Text

  /** Brand and franchise names that are never analysed (matched in the lower-cased title). */
  const BrandTerms: seq<string> := [
    "disney", "marvel", "nike", "nintendo", "pokemon", "coca-cola",
    "mcdonalds", "star wars", "harry potter", "netflix", "spotify"
  ]

  /** Markers of news and tragedy posts (matched in the lower-cased title). */
  const NewsTerms: seq<string> := [
    "died", "killed", "arrested", "convicted", "sentenced",
    "breaking:", "update:", "megathread"
  ]

  const MinComments: int := 20
  const MaxTitleLength: int := 100

  /**
   * `is_worth_analyzing`: the four checks in the order the source makes them.
   * The length check is on the original title, the term checks on its
   * lower-cased copy, and a term matches anywhere inside a word.
   */
  predicate IsWorthAnalyzing(title: string, numComments: int) {
    var titleLower := Lower(title);
    if ContainsAny(titleLower, BrandTerms) then false
    else if ContainsAny(titleLower, NewsTerms) then false
    else if numComments < MinComments then false
    else if |title| > MaxTitleLength then false
    else true
  }

  /** `term` appears somewhere in the title once the title is lower-cased. */
  ghost predicate Mentions(title: string, term: string) {
    exists i :: OccursAt(Lower(title), term, i)
  }

  /** A title passes exactly when it mentions no listed term and the two bounds hold. */
  lemma IsWorthAnalyzingIff(title: string, numComments: int)
    ensures IsWorthAnalyzing(title, numComments) <==>
              && (forall t :: t in BrandTerms ==> !Mentions(title, t))
              && (forall t :: t in NewsTerms ==> !Mentions(title, t))
              && numComments >= 20
              && |title| <= 100
  {
    var titleLower := Lower(title);
    ContainsAnyIff(titleLower, BrandTerms);
    ContainsAnyIff(titleLower, NewsTerms);
    forall t: string
      ensures Contains(titleLower, t) <==> Mentions(title, t)
    {
      ContainsIff(titleLower, t);
    }
  }

  /** The verdict depends on the title only up to ASCII case. */
  lemma CaseInsensitive(a: string, b: string, numComments: int)
    requires Lower(a) == Lower(b)
    ensures IsWorthAnalyzing(a, numComments) == IsWorthAnalyzing(b, numComments)
  {
  }

  /** A lower-case word placed anywhere in a title is matched by its copy in the lower-cased title. */
  lemma MentionsWord(pre: string, word: string, post: string, term: string, k: nat)
    requires forall i :: 0 <= i < |word| ==> !IsUpper(word[i])
    requires k + |term| <= |word| && word[k..k + |term|] == term
    ensures Mentions(pre + word + post, term)
  {
    var title := pre + word + post;
    var lower := Lower(title);
    assert lower[|pre| + k..|pre| + k + |term|] == term by {
      forall i | 0 <= i < |term|
        ensures lower[|pre| + k + i] == term[i]
      {
        assert title[|pre| + k + i] == word[k + i];
      }
    }
    assert OccursAt(lower, term, |pre| + k);
  }

  /** Matching is on raw substrings: any title containing "studied" is rejected through "died". */
  lemma StudiedIsRejected(pre: string, post: string, numComments: int)
    ensures !IsWorthAnalyzing(pre + "studied" + post, numComments)
  {
    var title := pre + "studied" + post;
    MentionsWord(pre, "studied", post, "died", 3);
    IsWorthAnalyzingIff(title, numComments);
    assert "died" in NewsTerms;
  }

  /** Brand names are matched whatever their case. */
  lemma UpperCaseBrandIsRejected(pre: string, post: string, numComments: int)
    ensures !IsWorthAnalyzing(pre + "DISNEY" + post, numComments)
  {
    var title := pre + "DISNEY" + post;
    var lower := Lower(title);
    assert lower[|pre|..|pre| + 6] == "disney" by {
      forall i | 0 <= i < 6
        ensures lower[|pre| + i] == "disney"[i]
      {
        assert title[|pre| + i] == "DISNEY"[i];
      }
    }
    assert OccursAt(lower, "disney", |pre|);
    IsWorthAnalyzingIff(title, numComments);
    assert "disney" in BrandTerms;
  }
}
