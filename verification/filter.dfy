/**
 * The keyword filter of the monitor (`should_forward_message`): a message is
 * forwarded when some keyword, case-folded, is a plain substring of the
 * case-folded text. There are no word boundaries and no patterns.
 */
module MessageFilter {
  import opened Text

  /** Some keyword of `keywords`, folded, occurs in the already folded text. */
  ghost predicate SomeKeywordOccurs(keywords: seq<string>, foldedText: string) {
    exists k :: 0 <= k < |keywords| && IsSubstring(Lower(keywords[k]), foldedText)
  }

  /** The loop over the keywords, in order, stopping at the first that occurs. */
  function MatchesAny(foldedText: string, keywords: seq<string>): (r: bool)
    ensures r <==> SomeKeywordOccurs(keywords, foldedText)
  {
    if keywords == [] then
      false
    else if Contains(foldedText, Lower(keywords[0])) then
      true
    else
      var rest := MatchesAny(foldedText, keywords[1..]);
      assert forall k :: 1 <= k < |keywords| ==> keywords[1..][k - 1] == keywords[k];
      rest
  }

  /** `should_forward_message(text, keywords)`. */
  function ShouldForward(text: string, keywords: seq<string>): (r: bool)
    ensures text == "" || keywords == [] ==> !r
    ensures text != "" ==> (r <==> SomeKeywordOccurs(keywords, Lower(text)))
  {
    if text == "" || keywords == [] then false
    else MatchesAny(Lower(text), keywords)
  }

  /** Keywords are alternatives: a match against `a + b` is a match against `a` or against `b`. */
  lemma KeywordsAreAlternatives(text: string, a: seq<string>, b: seq<string>)
    ensures ShouldForward(text, a + b) <==> ShouldForward(text, a) || ShouldForward(text, b)
  {
    if text != "" {
      var ab := a + b;
      if SomeKeywordOccurs(ab, Lower(text)) {
        var k :| 0 <= k < |ab| && IsSubstring(Lower(ab[k]), Lower(text));
        if k < |a| {
          assert ab[k] == a[k];
        } else {
          assert ab[k] == b[k - |a|];
        }
      }
      if SomeKeywordOccurs(a, Lower(text)) {
        var k :| 0 <= k < |a| && IsSubstring(Lower(a[k]), Lower(text));
        assert ab[k] == a[k];
      }
      if SomeKeywordOccurs(b, Lower(text)) {
        var k :| 0 <= k < |b| && IsSubstring(Lower(b[k]), Lower(text));
        assert ab[|a| + k] == b[k];
      }
    }
  }

  /** The case of the text does not matter: folding it first changes nothing. */
  lemma TextCaseIsIgnored(text: string, keywords: seq<string>)
    ensures ShouldForward(Lower(text), keywords) == ShouldForward(text, keywords)
  {
    LowerIdempotent(text);
  }

  /** The case of the keywords does not matter either. */
  lemma KeywordCaseIsIgnored(text: string, keywords: seq<string>)
    ensures ShouldForward(text, seq(|keywords|, i requires 0 <= i < |keywords| => Lower(keywords[i])))
         == ShouldForward(text, keywords)
  {
    var folded := seq(|keywords|, i requires 0 <= i < |keywords| => Lower(keywords[i]));
    forall k | 0 <= k < |keywords|
      ensures Lower(folded[k]) == Lower(keywords[k])
    {
      LowerIdempotent(keywords[k]);
    }
  }

  /** An empty keyword occurs in every non-empty text, as `"" in text` does in Python. */
  lemma EmptyKeywordMatchesAnyText(text: string, keywords: seq<string>)
    requires text != ""
    requires "" in keywords
    ensures ShouldForward(text, keywords)
  {
    var k :| 0 <= k < |keywords| && keywords[k] == "";
    assert OccursAt(Lower(keywords[k]), Lower(text), 0);
  }

  /** Matching is plain substring search: "art" matches "party". */
  lemma NoWordBoundaries()
    ensures ShouldForward("party", ["art"])
  {
    assert Lower("party") == "party";
    assert Lower("art") == "art";
    assert OccursAt("art", "party", 1);
  }
}
