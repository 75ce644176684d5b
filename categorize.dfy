/** The auto-categorize page: the suggested category of every transaction,
    the ones that would change, the distribution of suggested categories and
    the apply handler. */
module Categorize {
  import opened Common

  datatype Suggestion = Suggestion(transactionId: int, description: string, amount: real,
                                   currentCategory: string, suggestedCategory: string,
                                   confidence: real, icon: string, wouldChange: bool)

  /** The lowest confidence the apply request asks the server to act on. */
  const MinConfidence := 60

  /** The most suggestions listed at once. */
  const ListLimit := 50

  predicate WouldChange(s: Suggestion) { s.wouldChange }

  /** The suggestions that would change a category, in list order. */
  function Changeable(suggestions: seq<Suggestion>): seq<Suggestion> { Filter(suggestions, WouldChange) }

  /** Exactly the suggestions marked `wouldChange` are changeable, and they
      keep their order. */
  lemma ChangeableAreTheChanging(suggestions: seq<Suggestion>)
    ensures forall s :: s in Changeable(suggestions) <==> s in suggestions && s.wouldChange
    ensures IsSubsequence(Changeable(suggestions), suggestions)
  {
    FilterIsSubsequence(suggestions, WouldChange);
  }

  /** `s.suggestedCategory || 'other'`. */
  function Category(s: Suggestion): (c: string)
    ensures s.suggestedCategory != "" ==> c == s.suggestedCategory
    ensures s.suggestedCategory == "" ==> c == "other"
  {
    if s.suggestedCategory != "" then s.suggestedCategory else "other"
  }

  /** The categories of the suggestions, in list order. */
  function Categories(suggestions: seq<Suggestion>): seq<string> { KeysOf(suggestions, Category) }

  /** Every suggestion counts once. */
  function One(s: Suggestion): real { 1.0 }

  /** Counting by adding 1 per suggestion of a category gives the number of
      times that category occurs. */
  lemma {:induction false} CountIsOccurrences(suggestions: seq<Suggestion>, c: string)
    ensures GroupSum(suggestions, Category, One, c) == multiset(Categories(suggestions))[c] as real
  {
    if suggestions != [] {
      var init, s := suggestions[..|suggestions| - 1], suggestions[|suggestions| - 1];
      assert suggestions == init + [s];
      CountIsOccurrences(init, c);
      AppendKey(init, s, Category);
      assert multiset(Categories(suggestions)) == multiset(Categories(init)) + multiset{Category(s)};
    }
  }

  /** Adding 1 per suggestion counts the suggestions. */
  lemma {:induction false} OnesCount(suggestions: seq<Suggestion>)
    ensures SumOf(suggestions, One) == |suggestions| as real
  {
    if suggestions != [] {
      OnesCount(suggestions[..|suggestions| - 1]);
    }
  }

  /** The category distribution: each category occurring among the
      suggestions, with the number of suggestions in it. The counts, listed in
      order of first occurrence, add up to the number of suggestions, and the
      distribution is empty exactly when there are no suggestions. */
  method CategoryCounts(suggestions: seq<Suggestion>) returns (counts: map<string, real>)
    ensures forall c :: c in counts <==> exists i :: 0 <= i < |suggestions| && Category(suggestions[i]) == c
    ensures forall c :: c in counts ==> counts[c] == multiset(Categories(suggestions))[c] as real
    ensures MapSum(Distinct(Categories(suggestions)), counts) == |suggestions| as real
    ensures |counts| > 0 <==> suggestions != []
  {
    counts := GroupTotals(suggestions, Category, One);
    forall c | c in counts ensures counts[c] == multiset(Categories(suggestions))[c] as real {
      CountIsOccurrences(suggestions, c);
    }
    OnesCount(suggestions);
    forall c ensures c in counts <==> exists i :: 0 <= i < |suggestions| && Category(suggestions[i]) == c {
      if c in counts {
        var i :| 0 <= i < |Categories(suggestions)| && Categories(suggestions)[i] == c;
        assert Category(suggestions[i]) == c;
      }
      if exists i :: 0 <= i < |suggestions| && Category(suggestions[i]) == c {
        var i :| 0 <= i < |suggestions| && Category(suggestions[i]) == c;
        assert Categories(suggestions)[i] == c;
      }
    }
    if suggestions != [] {
      assert Category(suggestions[0]) in counts;
    }
    if |counts| > 0 {
      var c :| c in counts;
      assert c in Categories(suggestions);
    }
  }

  /** The distribution as shown: one chip per category, largest count first,
      each with its count. */
  method Distribution(counts: map<string, real>) returns (chips: seq<Entry>)
    ensures |chips| == |counts|
    ensures DescendingBy(chips, EntryValue)
    ensures forall i :: 0 <= i < |chips| ==> chips[i].name in counts && chips[i].value == counts[chips[i].name]
    ensures forall c :: c in counts ==> exists i :: 0 <= i < |chips| && chips[i].name == c
  {
    var entries := Entries(counts);
    chips := SortedDescendingBy(entries, EntryValue);
    SameMembers(chips, entries);
    forall i | 0 <= i < |chips| ensures chips[i].name in counts && chips[i].value == counts[chips[i].name] {
      assert chips[i] in entries;
      var j :| 0 <= j < |entries| && entries[j] == chips[i];
    }
    forall c | c in counts ensures exists i :: 0 <= i < |chips| && chips[i].name == c {
      var j :| 0 <= j < |entries| && entries[j].name == c;
      assert entries[j] in chips;
      var i :| 0 <= i < |chips| && chips[i] == entries[j];
    }
  }

  /** The listed suggestions: the first fifty, in order. */
  function Listed(suggestions: seq<Suggestion>): (shown: seq<Suggestion>)
    ensures |shown| == if |suggestions| < ListLimit then |suggestions| else ListLimit
    ensures shown == suggestions[..|shown|]
  {
    suggestions[..if |suggestions| < ListLimit then |suggestions| else ListLimit]
  }

  /** The "Showing 50 of N" footer appears with more than fifty suggestions. */
  predicate FooterShown(suggestions: seq<Suggestion>) {
    |suggestions| > ListLimit
  }

  /** The footer appears exactly when the list leaves suggestions out. */
  lemma FooterIffTruncated(suggestions: seq<Suggestion>)
    ensures FooterShown(suggestions) <==> |Listed(suggestions)| < |suggestions|
    ensures FooterShown(suggestions) ==> |Listed(suggestions)| == ListLimit
  {
  }

  /** The colour of the confidence figure. */
  datatype Band = Green | Amber | Grey

  function ConfidenceBand(confidence: real): (b: Band)
    ensures b == Green <==> confidence >= 80.0
    ensures b == Amber <==> 60.0 <= confidence < 80.0
    ensures b == Grey <==> confidence < 60.0
  {
    if confidence >= 80.0 then Green else if confidence >= 60.0 then Amber else Grey
  }

  /** The confidence figure is coloured exactly for the suggestions confident
      enough for the apply request. */
  lemma ColouredIffApplicable(confidence: real)
    ensures ConfidenceBand(confidence) != Grey <==> confidence >= MinConfidence as real
  {
  }

  /** The struck-through old category: `s.currentCategory || 'none'`. */
  function OldCategoryLabel(s: Suggestion): (l: string)
    ensures s.currentCategory != "" ==> l == s.currentCategory
    ensures s.currentCategory == "" ==> l == "none"
  {
    if s.currentCategory != "" then s.currentCategory else "none"
  }

  /** "Apply N Changes" shows while something would change and nothing has
      been applied yet. */
  predicate ApplyButtonShown(suggestions: seq<Suggestion>, applied: bool) {
    |Changeable(suggestions)| > 0 && !applied
  }

  class CategorizePage {
    var suggestions: seq<Suggestion>
    var loading: bool
    var applying: bool
    var applied: bool

    constructor ()
      ensures suggestions == [] && loading && !applying && !applied
    {
      suggestions, loading, applying, applied := [], true, false, false;
    }

    /** The review reply replaces the suggestions; a failed request keeps
        them. Loading ends either way. */
    method Load(reply: Option<seq<Suggestion>>)
      modifies this
      ensures reply.Some? ==> suggestions == reply.value
      ensures reply.None? ==> suggestions == old(suggestions)
      ensures !loading && applying == old(applying) && applied == old(applied)
    {
      if reply.Some? {
        suggestions := reply.value;
      }
      loading := false;
    }

    /** Applies the suggestions with confidence at least 60. Once the apply
        request succeeds the page is marked applied and the review is asked
        for again; its reply, when it arrives, replaces the suggestions. A
        failed apply changes nothing, and after a successful one the button
        is gone whatever the review does. */
    method HandleApply(applyOk: bool, review: Option<seq<Suggestion>>)
      returns (minConfidence: int, reviewRequested: bool)
      modifies this
      ensures minConfidence == MinConfidence
      ensures reviewRequested <==> applyOk
      ensures applied <==> old(applied) || applyOk
      ensures applyOk && review.Some? ==> suggestions == review.value
      ensures !(applyOk && review.Some?) ==> suggestions == old(suggestions)
      ensures applyOk ==> !ApplyButtonShown(suggestions, applied)
      ensures !applying && loading == old(loading)
    {
      applying := true;
      minConfidence := MinConfidence;
      reviewRequested := false;
      if applyOk {
        applied := true;
        reviewRequested := true;
        if review.Some? {
          suggestions := review.value;
        }
      }
      applying := false;
    }
  }
}
