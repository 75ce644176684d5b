/** The live-prices page: looking up one crypto or stock symbol, with the
    symbol normalised for its market, and the tab switch. */
module Prices {
  import opened Common

  datatype Tab = Crypto | Stock

  datatype CryptoPrice = CryptoPrice(symbol: string, name: string, priceUsd: real, change24h: real, marketCap: real)

  datatype StockPrice = StockPrice(symbol: string, name: string, price: real, change: real,
                                   changePercent: real, high: real, low: real)

  /** A lookup's reply: a failed request, or a body that may be `null`. */
  datatype Reply<T> = Failed | Fetched(body: Option<T>)

  const PriceError := "Could not find price data. Check the symbol."

  const PopularCrypto: seq<string> := ["bitcoin", "ethereum", "solana", "cardano", "ripple"]
  const PopularStocks: seq<string> := ["AAPL", "MSFT", "GOOGL", "AMZN", "TSLA"]

  /** The symbol looked up on a tab: trimmed, then lower-cased for crypto
      and upper-cased for stocks. */
  function Normalise(tab: Tab, symbol: string): (q: string)
    ensures tab == Crypto ==> q == Lower(Trim(symbol)) && HasNoUpperCase(q)
    ensures tab == Stock ==> q == Upper(Trim(symbol)) && HasNoLowerCase(q)
    ensures q == [] <==> IsBlank(symbol)
  {
    LowerIsLower(Trim(symbol));
    UpperIsUpper(Trim(symbol));
    if tab == Crypto then Lower(Trim(symbol)) else Upper(Trim(symbol))
  }

  /** The request path of a lookup. */
  function PricePath(tab: Tab, query: string): (p: string)
    ensures tab == Crypto ==> p == "/api/prices/crypto/" + query
    ensures tab == Stock ==> p == "/api/prices/stock/" + query
  {
    (if tab == Crypto then "/api/prices/crypto/" else "/api/prices/stock/") + query
  }

  /** "Search" is disabled while loading or while the symbol is blank. */
  predicate SearchDisabled(loading: bool, symbol: string) {
    loading || Trim(symbol) == ""
  }

  /** A string with no white space at either end is its own trim. */
  lemma TrimOfTrimmed(s: string)
    requires s != [] && !IsSpace(s[0]) && !IsSpace(s[|s| - 1])
    ensures Trim(s) == s
  {
  }

  /** Normalising twice changes nothing more than normalising once. */
  lemma NormaliseIdempotent(tab: Tab, symbol: string)
    ensures Normalise(tab, Normalise(tab, symbol)) == Normalise(tab, symbol)
  {
    var t := Trim(symbol);
    if t != [] {
      if tab == Crypto {
        LowerOfTrimmed(t);
      } else {
        UpperOfTrimmed(t);
      }
    }
  }

  /** Lower-casing a trimmed string leaves nothing to trim or lower-case. */
  lemma LowerOfTrimmed(s: string)
    requires s != [] && !IsSpace(s[0]) && !IsSpace(s[|s| - 1])
    ensures Lower(Trim(Lower(s))) == Lower(s)
  {
    var l := Lower(s);
    assert l != [] && !IsSpace(l[0]) && !IsSpace(l[|l| - 1]);
    TrimOfTrimmed(l);
    LowerIsLower(s);
  }

  /** Upper-casing a trimmed string leaves nothing to trim or upper-case. */
  lemma UpperOfTrimmed(s: string)
    requires s != [] && !IsSpace(s[0]) && !IsSpace(s[|s| - 1])
    ensures Upper(Trim(Upper(s))) == Upper(s)
  {
    var u := Upper(s);
    assert u != [] && !IsSpace(u[0]) && !IsSpace(u[|u| - 1]);
    TrimOfTrimmed(u);
    UpperIsUpper(s);
  }

  lemma LowerOfLowerCase(s: string)
    requires HasNoUpperCase(s)
    ensures Lower(s) == s
  {
  }

  lemma UpperOfUpperCase(s: string)
    requires HasNoLowerCase(s)
    ensures Upper(s) == s
  {
  }

  /** Every popular crypto chip is looked up exactly as it is shown. */
  lemma PopularCryptoSearchedAsShown(i: nat)
    requires i < |PopularCrypto|
    ensures Normalise(Crypto, PopularCrypto[i]) == PopularCrypto[i]
  {
    var c := PopularCrypto[i];
    assert c != [] && !IsSpace(c[0]) && !IsSpace(c[|c| - 1]);
    TrimOfTrimmed(c);
    LowerOfLowerCase(c);
  }

  /** Every popular stock chip is looked up exactly as it is shown. */
  lemma PopularStocksSearchedAsShown(i: nat)
    requires i < |PopularStocks|
    ensures Normalise(Stock, PopularStocks[i]) == PopularStocks[i]
  {
    var s := PopularStocks[i];
    assert s != [] && !IsSpace(s[0]) && !IsSpace(s[|s| - 1]);
    TrimOfTrimmed(s);
    UpperOfUpperCase(s);
  }

  class PricesPage {
    var tab: Tab
    var symbol: string
    var cryptoResult: Option<CryptoPrice>
    var stockResult: Option<StockPrice>
    var loading: bool
    var error: string

    /** At most one of the two results is set. */
    predicate Valid()
      reads this
    {
      cryptoResult.None? || stockResult.None?
    }

    constructor ()
      ensures Valid()
      ensures tab == Crypto && symbol == "" && cryptoResult == None && stockResult == None
      ensures !loading && error == ""
    {
      tab, symbol, cryptoResult, stockResult, loading, error := Crypto, "", None, None, false, "";
    }

    /** Looks up the typed symbol on the current tab. A blank symbol sends
        nothing and changes nothing; otherwise the lookup runs. */
    method HandleSearch(cryptoReply: Reply<CryptoPrice>, stockReply: Reply<StockPrice>) returns (path: Option<string>)
      requires Valid()
      modifies this
      ensures Valid()
      ensures tab == old(tab) && symbol == old(symbol)
      ensures IsBlank(old(symbol)) ==>
                path == None && cryptoResult == old(cryptoResult) && stockResult == old(stockResult)
                && error == old(error) && loading == old(loading)
      ensures !IsBlank(old(symbol)) ==> path == Some(PricePath(tab, Normalise(tab, symbol))) && !loading
      ensures !IsBlank(old(symbol)) && tab == Crypto ==>
                stockResult == None
                && cryptoResult == (if cryptoReply.Fetched? then cryptoReply.body else None)
                && error == (if cryptoReply.Failed? then PriceError else "")
      ensures !IsBlank(old(symbol)) && tab == Stock ==>
                cryptoResult == None
                && stockResult == (if stockReply.Fetched? then stockReply.body else None)
                && error == (if stockReply.Failed? then PriceError else "")
    {
      if IsBlank(symbol) {
        return None;
      }
      var p := Fetch(cryptoReply, stockReply);
      path := Some(p);
    }

    /** The lookup of a symbol that is not blank: the error and both results
        are cleared, the normalised symbol is looked up on the tab's market,
        and the reply sets that tab's result, or the error when the request
        fails. */
    method Fetch(cryptoReply: Reply<CryptoPrice>, stockReply: Reply<StockPrice>) returns (path: string)
      requires !IsBlank(symbol)
      modifies this
      ensures Valid()
      ensures tab == old(tab) && symbol == old(symbol)
      ensures path == PricePath(tab, Normalise(tab, symbol)) && !loading
      ensures tab == Crypto ==>
                stockResult == None
                && cryptoResult == (if cryptoReply.Fetched? then cryptoReply.body else None)
                && error == (if cryptoReply.Failed? then PriceError else "")
      ensures tab == Stock ==>
                cryptoResult == None
                && stockResult == (if stockReply.Fetched? then stockReply.body else None)
                && error == (if stockReply.Failed? then PriceError else "")
    {
      path := PricePath(tab, Normalise(tab, symbol));
      loading, error, cryptoResult, stockResult := true, "", None, None;
      if tab == Crypto {
        if cryptoReply.Fetched? {
          cryptoResult := cryptoReply.body;
        } else {
          error := PriceError;
        }
      } else {
        if stockReply.Fetched? {
          stockResult := stockReply.body;
        } else {
          error := PriceError;
        }
      }
      loading := false;
    }

    /** A tab button selects its tab and clears the symbol, both results and
        the error. */
    method SwitchTab(t: Tab)
      modifies this
      ensures Valid()
      ensures tab == t && symbol == "" && cryptoResult == None && stockResult == None && error == ""
      ensures loading == old(loading)
    {
      tab, symbol, cryptoResult, stockResult, error := t, "", None, None, "";
    }

    /** A popular chip only fills in the symbol. */
    method PickPopular(s: string)
      requires Valid()
      modifies this
      ensures Valid()
      ensures symbol == s
      ensures tab == old(tab) && cryptoResult == old(cryptoResult) && stockResult == old(stockResult)
      ensures error == old(error) && loading == old(loading)
    {
      symbol := s;
    }
  }
}
