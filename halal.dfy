/** The halal stock screener: checking one ticker, classifying the reply,
    and searching the pre-screened list. */
module Halal {
  import opened Common

  /** The check endpoint's reply; absent text fields are `None`. */
  datatype CheckReply = CheckReply(symbol: string, name: Option<string>, found: bool, isHalal: bool,
                                   reason: Option<string>, sector: Option<string>, debtRatio: Option<real>)

  datatype Status = Unknown | Halal | Haram

  /** The result card. */
  datatype Screening = Screening(symbol: string, name: string, status: Status, reason: string,
                                 sector: string, debtRatio: Option<real>)

  const NotFoundReason := "Stock not found in our database"
  const FailureReason := "Could not find stock data"

  /** `x || ''` on an optional text field. */
  function OrEmpty(x: Option<string>): (s: string)
    ensures x.Some? ==> s == x.value
    ensures x.None? ==> s == ""
  {
    x.GetOr("")
  }

  /** The ticker sent to the check endpoint: trimmed and upper-cased. */
  function Query(symbol: string): (q: string)
    requires !IsBlank(symbol)
    ensures q == Upper(Trim(symbol))
    ensures q != [] && !IsSpace(q[0]) && !IsSpace(q[|q| - 1])
    ensures HasNoLowerCase(q)
  {
    var t := Trim(symbol);
    UpperIsUpper(t);
    assert Upper(t)[0] == UpperChar(t[0]) && Upper(t)[|t| - 1] == UpperChar(t[|t| - 1]);
    Upper(t)
  }

  /** The card for a reply: UNKNOWN with the fixed reason when the stock was
      not found, else HALAL or HARAM as the reply says with its own reason;
      missing name, reason and sector read as empty. */
  function ResultOf(r: CheckReply): (res: Screening)
    ensures res.status == Unknown <==> !r.found
    ensures res.status == Halal <==> r.found && r.isHalal
    ensures res.status == Haram <==> r.found && !r.isHalal
    ensures !r.found ==> res.reason == NotFoundReason
    ensures r.found ==> res.reason == OrEmpty(r.reason)
    ensures res.symbol == r.symbol && res.name == OrEmpty(r.name) && res.sector == OrEmpty(r.sector)
    ensures res.debtRatio == r.debtRatio
  {
    Screening(r.symbol, OrEmpty(r.name),
              if !r.found then Unknown else if r.isHalal then Halal else Haram,
              if !r.found then NotFoundReason else OrEmpty(r.reason),
              OrEmpty(r.sector), r.debtRatio)
  }

  /** The card when the request fails: UNKNOWN, the symbol upper-cased as
      typed (not trimmed), no name or sector. */
  function FailureResult(symbol: string): (res: Screening)
    ensures res.status == Unknown && res.reason == FailureReason
    ensures res.symbol == Upper(symbol) && res.name == "" && res.sector == "" && res.debtRatio == None
  {
    Screening(Upper(symbol), "", Unknown, FailureReason, "", None)
  }

  /** "Check" is disabled while loading or while the symbol is blank. */
  predicate CheckDisabled(loading: bool, symbol: string) {
    loading || Trim(symbol) == ""
  }

  /** An entry of the pre-screened list; absent text fields are `None`. */
  datatype Stock = Stock(symbol: Option<string>, name: Option<string>, sector: Option<string>, reason: Option<string>)

  /** The list endpoint's reply: with a `stocks` array, or without one (or `null`). */
  datatype ListReply = Stocks(stocks: seq<Stock>) | NoStocks

  /** Whether the lower-cased query occurs in the lower-cased symbol, name
      or sector, a missing field read as empty. */
  predicate Matches(s: Stock, q: string) {
    || Contains(Lower(OrEmpty(s.symbol)), q)
    || Contains(Lower(OrEmpty(s.name)), q)
    || Contains(Lower(OrEmpty(s.sector)), q)
  }

  /** The list as searched: whole for an empty search, else the entries
      matching the lower-cased search. */
  function FilterList(list: seq<Stock>, search: string): (r: seq<Stock>)
    ensures search == "" ==> r == list
    ensures search != "" ==> forall s :: s in r <==> s in list && Matches(s, Lower(search))
  {
    var q := Lower(search);
    if q == "" then list else Filter(list, (s: Stock) => Matches(s, q))
  }

  /** The search keeps the list's order, and the empty-search shortcut gives
      what filtering with the empty query would. */
  lemma {:induction false} FilterListIsSubsequence(list: seq<Stock>, search: string)
    ensures IsSubsequence(FilterList(list, search), list)
    ensures FilterList(list, search) == Filter(list, (s: Stock) => Matches(s, Lower(search)))
  {
    var q := Lower(search);
    FilterIsSubsequence(list, (s: Stock) => Matches(s, q));
    if q == "" {
      forall i | 0 <= i < |list| ensures Matches(list[i], q) {
        ContainsEmpty(Lower(OrEmpty(list[i].symbol)));
      }
      FilterAll(list, (s: Stock) => Matches(s, q));
    }
  }

  /** Lower-casing undoes upper-casing on ASCII letters. */
  lemma LowerOfUpper(s: string)
    ensures Lower(Upper(s)) == Lower(s)
  {
  }

  /** The search ignores the case of what is typed. */
  lemma SearchIgnoresCase(list: seq<Stock>, search: string)
    ensures FilterList(list, Upper(search)) == FilterList(list, search)
  {
    LowerOfUpper(search);
  }

  class HalalPage {
    var symbol: string
    var result: Option<Screening>
    var halalList: seq<Stock>
    var loading: bool
    var showList: bool
    var listSearch: string

    constructor ()
      ensures symbol == "" && result == None && halalList == [] && !loading && !showList && listSearch == ""
    {
      symbol, result, halalList, loading, showList, listSearch := "", None, [], false, false, "";
    }

    /** Checks the typed symbol. A blank symbol sends nothing and changes
        nothing; otherwise the trimmed, upper-cased symbol is sent and the
        card shows the reply's classification, or the failure card when the
        request fails. */
    method HandleCheck(reply: Option<CheckReply>) returns (query: Option<string>)
      modifies this
      ensures IsBlank(old(symbol)) ==> query == None && result == old(result) && loading == old(loading)
      ensures !IsBlank(old(symbol)) ==> query == Some(Query(old(symbol))) && !loading
      ensures !IsBlank(old(symbol)) && reply.Some? ==> result == Some(ResultOf(reply.value))
      ensures !IsBlank(old(symbol)) && reply.None? ==> result == Some(FailureResult(old(symbol)))
      ensures symbol == old(symbol) && halalList == old(halalList) && showList == old(showList)
      ensures listSearch == old(listSearch)
    {
      if IsBlank(symbol) {
        return None;
      }
      loading := true;
      result := None;
      query := Some(Query(symbol));
      result := Some(if reply.Some? then ResultOf(reply.value) else FailureResult(symbol));
      loading := false;
    }

    /** Loads the pre-screened list: a reply replaces it (none without a
        `stocks` array) and shows it; a failed request changes neither. */
    method LoadList(reply: Option<ListReply>)
      modifies this
      ensures reply == Some(NoStocks) ==> halalList == [] && showList
      ensures reply.Some? && reply.value.Stocks? ==> halalList == reply.value.stocks && showList
      ensures reply.None? ==> halalList == old(halalList) && showList == old(showList)
      ensures !loading
      ensures symbol == old(symbol) && result == old(result) && listSearch == old(listSearch)
    {
      loading := true;
      if reply.Some? {
        halalList := if reply.value.Stocks? then reply.value.stocks else [];
        showList := true;
      }
      loading := false;
    }
  }
}
