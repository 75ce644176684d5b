/** The HTTP client every page uses: the request URL, the headers sent, how
    a response becomes a value or an error, and the query strings of the
    list endpoints. */
module Api {
  import opened Common

  const DefaultBaseUrl := "https://api.trybarakah.com"

  /** The base URL: the configured one when set and non-empty, else the
      production host. */
  function BaseUrl(configured: Option<string>): (b: string)
    ensures configured.Some? && configured.value != "" ==> b == configured.value
    ensures configured.None? || configured.value == "" ==> b == DefaultBaseUrl
  {
    if configured.Some? && configured.value != "" then configured.value else DefaultBaseUrl
  }

  /** The URL fetched for an endpoint: the base URL followed by the endpoint. */
  function RequestUrl(configured: Option<string>, endpoint: string): (u: string)
    ensures u == BaseUrl(configured) + endpoint
    ensures u[|BaseUrl(configured)|..] == endpoint
  {
    BaseUrl(configured) + endpoint
  }

  const ContentType := "Content-Type"
  const JsonMediaType := "application/json"
  const Authorization := "Authorization"
  const BearerPrefix := "Bearer "

  /** A stored token that `if (token)` accepts: present and non-empty. */
  predicate HasToken(token: Option<string>) {
    token.Some? && token.value != ""
  }

  /** The credentials of an `Authorization` value in the bearer scheme of
      section 2.1 of RFC 6750: what follows "Bearer ". */
  function BearerCredentials(value: string): (t: Option<string>)
    ensures t.Some? ==> value == BearerPrefix + t.value
  {
    if |value| >= |BearerPrefix| && value[..|BearerPrefix|] == BearerPrefix
    then Some(value[|BearerPrefix|..]) else None
  }

  /** The headers of a request: JSON content type unless the caller gives
      one, the caller's headers, and the stored token as bearer credentials
      in place of any `Authorization` the caller gave. */
  method BuildHeaders(callerHeaders: map<string, string>, token: Option<string>) returns (headers: map<string, string>)
    ensures headers.Keys == callerHeaders.Keys + {ContentType} + (if HasToken(token) then {Authorization} else {})
    ensures headers[ContentType] == (if ContentType in callerHeaders then callerHeaders[ContentType] else JsonMediaType)
    ensures HasToken(token) ==> headers[Authorization] == BearerPrefix + token.value
    ensures !HasToken(token) && Authorization in callerHeaders ==> headers[Authorization] == callerHeaders[Authorization]
    ensures forall k :: k in callerHeaders && k != ContentType && k != Authorization ==> headers[k] == callerHeaders[k]
  {
    headers := map[ContentType := JsonMediaType] + callerHeaders;
    if HasToken(token) {
      headers := headers[Authorization := BearerPrefix + token.value];
    }
  }

  /** The token stored is the token the server receives. */
  lemma BearerRoundTrip(token: string)
    ensures BearerCredentials(BearerPrefix + token) == Some(token)
  {
    assert (BearerPrefix + token)[..|BearerPrefix|] == BearerPrefix;
    assert (BearerPrefix + token)[|BearerPrefix|..] == token;
  }

  /** A response: whether its status is 2xx, the status, and the body text. */
  datatype Response = Response(ok: bool, status: nat, text: string)

  /** What `apiFetch` makes of a response: it throws an `Error` with a
      message, returns `null`, or returns the parsed body. */
  datatype Outcome = Thrown(message: string) | Null | Parsed(body: string)

  /** A failed response throws its body text, or "API error <status>" when the
      body is empty; a successful one gives `null` for an empty body and the
      body otherwise. */
  function Classify(res: Response): (o: Outcome)
    ensures o.Thrown? <==> !res.ok
    ensures !res.ok && res.text != "" ==> o.message == res.text
    ensures !res.ok && res.text == "" ==> o.message == "API error " + NatToString(res.status)
    ensures o.Null? <==> res.ok && res.text == ""
    ensures o.Parsed? ==> o.body == res.text
  {
    if !res.ok then Thrown(if res.text != "" then res.text else "API error " + NatToString(res.status))
    else if res.text == "" then Null
    else Parsed(res.text)
  }

  /** Every thrown message is non-empty, and a bodiless failure names its
      status: two such failures with the same message have the same status. */
  lemma {:induction false} ErrorNamesStatus(a: Response, b: Response)
    ensures Classify(a).Thrown? ==> Classify(a).message != ""
    ensures !a.ok && !b.ok && a.text == "" && b.text == "" && Classify(a) == Classify(b) ==> a.status == b.status
  {
    var prefix := "API error ";
    if !a.ok && !b.ok && a.text == "" && b.text == "" && Classify(a) == Classify(b) {
      assert (prefix + NatToString(a.status))[|prefix|..] == NatToString(a.status);
      assert (prefix + NatToString(b.status))[|prefix|..] == NatToString(b.status);
      NatToStringInjective(a.status, b.status);
    }
  }

  /** One `key=value` pair of a query string. */
  datatype Param = Param(key: string, value: string)

  /** The value set for `key`, if any. */
  function Get(params: seq<Param>, key: string): (v: Option<string>)
    ensures v.None? <==> forall i :: 0 <= i < |params| ==> params[i].key != key
    ensures v.Some? ==> exists i :: 0 <= i < |params| && params[i] == Param(key, v.value)
  {
    if params == [] then None
    else if params[|params| - 1].key == key then Some(params[|params| - 1].value)
    else
      var v := Get(params[..|params| - 1], key);
      assert forall i :: 0 <= i < |params| - 1 ==> params[..|params| - 1][i] == params[i];
      v
  }

  /** Every key is set at most once. */
  ghost predicate KeysUnique(params: seq<Param>) {
    forall i, j :: 0 <= i < j < |params| ==> params[i].key != params[j].key
  }

  /** `params.set(key, value)`: replaces the value of an existing key in
      place, or appends the pair. */
  function Set(params: seq<Param>, key: string, value: string): (r: seq<Param>)
    requires KeysUnique(params)
    ensures KeysUnique(r)
    ensures Get(r, key) == Some(value)
    ensures forall k :: k != key ==> Get(r, k) == Get(params, k)
  {
    if exists i :: 0 <= i < |params| && params[i].key == key then
      var i :| 0 <= i < |params| && params[i].key == key;
      var r := params[i := Param(key, value)];
      assert forall j :: 0 <= j < |r| ==> r[j].key == params[j].key;
      GetOfUnique(r, key, i);
      forall k | k != key ensures Get(r, k) == Get(params, k) {
        if Get(params, k).Some? {
          var j :| 0 <= j < |params| && params[j] == Param(k, Get(params, k).value);
          assert r[j] == params[j];
          GetOfUnique(params, k, j);
          GetOfUnique(r, k, j);
        }
      }
      r
    else
      var r := params + [Param(key, value)];
      assert r[..|r| - 1] == params;
      r
  }

  /** In a query with unique keys, the value of a key is the one at its index. */
  lemma {:induction false} GetOfUnique(params: seq<Param>, key: string, i: nat)
    requires KeysUnique(params) && i < |params| && params[i].key == key
    ensures Get(params, key) == Some(params[i].value)
  {
    if i < |params| - 1 {
      var init := params[..|params| - 1];
      assert init[i] == params[i];
      GetOfUnique(init, key, i);
    }
  }

  /** The query string: the pairs joined with "&" in order. Percent-encoding
      is not modelled. */
  function Serialize(params: seq<Param>): string {
    if params == [] then ""
    else
      var init := Serialize(params[..|params| - 1]);
      var last := params[|params| - 1].key + "=" + params[|params| - 1].value;
      if init == "" then last else init + "&" + last
  }

  /** A numeric argument that `if (n)` accepts: present and not 0. */
  predicate IsSetNumber(n: Option<int>) {
    n.Some? && n.value != 0
  }

  /** A text argument that `if (s)` accepts: present and non-empty. */
  predicate IsSetText(s: Option<string>) {
    s.Some? && s.value != ""
  }

  /** The query of the transaction list: `type` and `limit`, each only when
      given and truthy. */
  method TransactionParams(txType: Option<string>, limit: Option<int>) returns (params: seq<Param>)
    ensures KeysUnique(params)
    ensures Get(params, "type") == (if IsSetText(txType) then txType else None)
    ensures Get(params, "limit") == (if IsSetNumber(limit) then Some(IntToString(limit.value)) else None)
    ensures forall k :: k != "type" && k != "limit" ==> Get(params, k).None?
  {
    params := [];
    if IsSetText(txType) {
      params := Set(params, "type", txType.value);
    }
    if IsSetNumber(limit) {
      params := Set(params, "limit", IntToString(limit.value));
    }
  }

  /** The path of the transaction list. */
  method TransactionsPath(txType: Option<string>, limit: Option<int>) returns (path: string)
    ensures exists params :: KeysUnique(params) && path == "/api/transactions/list?" + Serialize(params)
              && Get(params, "type") == (if IsSetText(txType) then txType else None)
              && Get(params, "limit") == (if IsSetNumber(limit) then Some(IntToString(limit.value)) else None)
              && (forall k :: k != "type" && k != "limit" ==> Get(params, k).None?)
  {
    var params := TransactionParams(txType, limit);
    path := "/api/transactions/list?" + Serialize(params);
  }

  /** The query of the budget list: `month` and `year`, each only when given
      and not 0. */
  method BudgetParams(month: Option<int>, year: Option<int>) returns (params: seq<Param>)
    ensures KeysUnique(params)
    ensures Get(params, "month") == (if IsSetNumber(month) then Some(IntToString(month.value)) else None)
    ensures Get(params, "year") == (if IsSetNumber(year) then Some(IntToString(year.value)) else None)
    ensures forall k :: k != "month" && k != "year" ==> Get(params, k).None?
  {
    params := [];
    if IsSetNumber(month) {
      params := Set(params, "month", IntToString(month.value));
    }
    if IsSetNumber(year) {
      params := Set(params, "year", IntToString(year.value));
    }
  }

  /** The path of the budget list. */
  method BudgetsPath(month: Option<int>, year: Option<int>) returns (path: string)
    ensures exists params :: KeysUnique(params) && path == "/api/budgets/list?" + Serialize(params)
              && Get(params, "month") == (if IsSetNumber(month) then Some(IntToString(month.value)) else None)
              && Get(params, "year") == (if IsSetNumber(year) then Some(IntToString(year.value)) else None)
              && (forall k :: k != "month" && k != "year" ==> Get(params, k).None?)
  {
    var params := BudgetParams(month, year);
    path := "/api/budgets/list?" + Serialize(params);
  }

  /** The minimum confidence the apply request uses when none is given. */
  const DefaultMinConfidence := 60

  /** The apply request's path; an omitted confidence defaults to 60. */
  function ApplyCategoriesPath(minConfidence: Option<int>): (p: string)
    ensures p == "/api/categorize/apply?minConfidence=" + IntToString(minConfidence.GetOr(DefaultMinConfidence))
  {
    "/api/categorize/apply?minConfidence=" + IntToString(minConfidence.GetOr(DefaultMinConfidence))
  }

  /** Omitting the confidence asks for exactly "minConfidence=60". */
  lemma ApplyDefaultIsSixty()
    ensures ApplyCategoriesPath(None) == ApplyCategoriesPath(Some(60))
    ensures ApplyCategoriesPath(None) == "/api/categorize/apply?minConfidence=60"
  {
    assert NatToString(6) == "6";
    assert NatToString(60) == NatToString(6) + [DigitChar(0)];
  }
}
