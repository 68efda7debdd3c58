/**
 * The help page (src/pages/HelpPage.tsx): a case-insensitive search over the FAQ
 * list, showing the matching entries or a "No matches" note.
 */
module HelpPage {
  import opened Seqs
  import opened Text

  datatype Faq = Faq(question: string, answer: string)

  /** An FAQ matches when the lower-cased term occurs in its lower-cased question or answer. */
  predicate FaqMatches(faq: Faq, term: string) {
    Contains(Lower(faq.question), Lower(term)) || Contains(Lower(faq.answer), Lower(term))
  }

  function MatchesTerm(term: string): Faq -> bool {
    (faq: Faq) => FaqMatches(faq, term)
  }

  /**
   * `filteredFAQs`: the FAQs in their order, an FAQ being kept exactly when the term,
   * ignoring case, occurs in its question or its answer.
   */
  function FilterFaqs(faqs: seq<Faq>, term: string): (r: seq<Faq>)
    ensures IsSubsequence(r, faqs)
    ensures forall f :: f in r <==>
      f in faqs && (Contains(Lower(f.question), Lower(term)) || Contains(Lower(f.answer), Lower(term)))
  {
    FilterIsSubsequence(MatchesTerm(term), faqs);
    Filter(MatchesTerm(term), faqs)
  }

  /** An empty search term keeps every FAQ. */
  lemma EmptyTermKeepsAll(faqs: seq<Faq>)
    ensures FilterFaqs(faqs, "") == faqs
  {
    forall f | f in faqs ensures MatchesTerm("")(f) {
      ContainsTrivial(Lower(f.question));
    }
    FilterKeepsAll(MatchesTerm(""), faqs);
  }

  /** A term found in a longer term matches every FAQ the longer one matches. */
  lemma MatchesWeaken(faq: Faq, term: string, longer: string)
    requires Contains(longer, term)
    requires FaqMatches(faq, longer)
    ensures FaqMatches(faq, term)
  {
    LowerKeepsContains(longer, term);
    if Contains(Lower(faq.question), Lower(longer)) {
      ContainsTransitive(Lower(faq.question), Lower(longer), Lower(term));
    } else {
      ContainsTransitive(Lower(faq.answer), Lower(longer), Lower(term));
    }
  }

  /**
   * Typing more narrows the results: when `term` occurs in `longer`, the results for
   * `longer` are exactly the results for `term` filtered again by `longer`, so they
   * are a subsequence of them.
   */
  lemma LongerTermNarrows(faqs: seq<Faq>, term: string, longer: string)
    requires Contains(longer, term)
    ensures FilterFaqs(FilterFaqs(faqs, term), longer) == FilterFaqs(faqs, longer)
    ensures IsSubsequence(FilterFaqs(faqs, longer), FilterFaqs(faqs, term))
    ensures forall f :: f in FilterFaqs(faqs, longer) ==> f in FilterFaqs(faqs, term)
  {
    var p := MatchesTerm(term);
    var q := MatchesTerm(longer);
    forall f ensures q(f) == (p(f) && q(f)) {
      if q(f) {
        MatchesWeaken(f, term, longer);
      }
    }
    FilterFilter(p, q, q, faqs);
    FilterIsSubsequence(q, Filter(p, faqs));
  }

  /** What the accordion shows: the matching entries, or the "No matches found" note for the term. */
  datatype FaqView = Entries(faqs: seq<Faq>) | NoMatches(term: string)

  function View(faqs: seq<Faq>, term: string): (v: FaqView)
    ensures v.NoMatches? <==> FilterFaqs(faqs, term) == []
    ensures v.NoMatches? ==> v.term == term
    ensures v.Entries? ==> v.faqs == FilterFaqs(faqs, term) && |v.faqs| > 0
  {
    var shown := FilterFaqs(faqs, term);
    if |shown| > 0 then Entries(shown) else NoMatches(term)
  }

  /** The note appears exactly when no FAQ contains the term in its question or answer. */
  lemma NoMatchesIffNothingContainsTerm(faqs: seq<Faq>, term: string)
    ensures View(faqs, term).NoMatches? <==> forall f :: f in faqs ==> !FaqMatches(f, term)
  {
    if forall f :: f in faqs ==> !FaqMatches(f, term) {
      FilterNone(MatchesTerm(term), faqs);
    } else {
      var f :| f in faqs && FaqMatches(f, term);
      assert f in FilterFaqs(faqs, term);
    }
  }

  /** With any FAQ at all, an empty search never shows the note. */
  lemma EmptyTermShowsEntries(faqs: seq<Faq>)
    requires faqs != []
    ensures View(faqs, "") == Entries(faqs)
  {
    EmptyTermKeepsAll(faqs);
  }
}
