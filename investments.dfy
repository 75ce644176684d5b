/** The investments page: account-type labels, the gain arrows, which
    account is expanded, and the add-account and add-holding forms. */
module Investments {
  import opened Common

  /** One entry of the account-type table. */
  datatype AccountType = AccountType(value: string, caption: string)

  const AccountTypes: seq<AccountType> := [
    AccountType("brokerage", "Brokerage"),
    AccountType("ira", "IRA"),
    AccountType("roth_ira", "Roth IRA"),
    AccountType("401k", "401(k)"),
    AccountType("crypto", "Crypto Wallet"),
    AccountType("other", "Other")
  ]

  /** `types.find(t => t.value === value)`: the first entry with that value. */
  function FindType(types: seq<AccountType>, value: string): (r: Option<AccountType>)
    ensures r.None? <==> forall i :: 0 <= i < |types| ==> types[i].value != value
    ensures r.Some? ==> exists i :: 0 <= i < |types| && types[i] == r.value && r.value.value == value
                                    && forall j :: 0 <= j < i ==> types[j].value != value
  {
    if types == [] then None
    else if types[0].value == value then Some(types[0])
    else
      var r := FindType(types[1..], value);
      assert forall i :: 1 <= i < |types| ==> types[i] == types[1..][i - 1];
      r
  }

  /** The badge of an account: the table's label for a known type, else the
      type as stored. */
  function TypeLabel(accountType: string): (shown: string)
    ensures (forall i :: 0 <= i < |AccountTypes| ==> AccountTypes[i].value != accountType) ==> shown == accountType
  {
    var t := FindType(AccountTypes, accountType);
    if t.Some? && t.value.caption != "" then t.value.caption else accountType
  }

  /** The values of the table start with six different letters. */
  lemma TypeValuesDiffer(j: nat, k: nat)
    requires j < k < |AccountTypes|
    ensures AccountTypes[j].value != AccountTypes[k].value
  {
    var initials := "bir4co";
    assert forall n :: 0 <= n < |AccountTypes| ==> AccountTypes[n].value[0] == initials[n];
  }

  /** Every type in the table gets its own label. */
  lemma KnownTypesGetTheirLabel(i: nat)
    requires i < |AccountTypes|
    ensures TypeLabel(AccountTypes[i].value) == AccountTypes[i].caption
  {
    var t := FindType(AccountTypes, AccountTypes[i].value);
    var k :| 0 <= k < |AccountTypes| && AccountTypes[k] == t.value && t.value.value == AccountTypes[i].value
             && forall j :: 0 <= j < k ==> AccountTypes[j].value != AccountTypes[i].value;
    if k < i {
      TypeValuesDiffer(k, i);
    } else if i < k {
      assert false;
    }
    assert AccountTypes[i].caption != "";
  }

  /** `(gainLoss || 0) >= 0`: the green ▲ for a gain that is missing or not
      negative. */
  predicate GainPositive(gainLoss: Option<real>) {
    gainLoss.GetOr(0.0) >= 0.0
  }

  /** Only a loss shows the red ▼. */
  lemma GainArrow(gainLoss: Option<real>)
    ensures !GainPositive(gainLoss) <==> gainLoss.Some? && gainLoss.value < 0.0
  {
  }

  datatype Badge = HalalBadge | ReviewBadge

  /** A holding's screening badge: "Halal", "Review", or none when unknown. */
  function HoldingBadge(isHalal: Option<bool>): (b: Option<Badge>)
    ensures b == Some(HalalBadge) <==> isHalal == Some(true)
    ensures b == Some(ReviewBadge) <==> isHalal == Some(false)
    ensures b.None? <==> isHalal.None?
  {
    if isHalal.None? then None else if isHalal.value then Some(HalalBadge) else Some(ReviewBadge)
  }

  /** The add-account form. */
  datatype AccountForm = AccountForm(name: string, accountType: string, broker: string)

  const EmptyAccountForm := AccountForm("", "brokerage", "")

  /** The add-holding form; the numbers are the texts typed. */
  datatype HoldingForm = HoldingForm(symbol: string, name: string, quantity: string,
                                     averageCost: string, currentPrice: string)

  const EmptyHoldingForm := HoldingForm("", "", "", "", "")

  /** "Add Holding" is disabled while saving or until a symbol, a quantity
      and an average cost are typed. */
  predicate AddHoldingDisabled(saving: bool, form: HoldingForm) {
    saving || form.symbol == "" || form.quantity == "" || form.averageCost == ""
  }

  /** "Add Account" is disabled while saving or until a name is typed. */
  predicate AddAccountDisabled(saving: bool, form: AccountForm) {
    saving || form.name == ""
  }

  /** The posted holding; the number fields are the texts `parseFloat` reads. */
  datatype HoldingRequest = HoldingRequest(accountId: int, symbol: string, name: string,
                                           quantityText: string, averageCostText: string,
                                           currentPriceText: string)

  /** The holding posted for a form: the symbol upper-cased, and the average
      cost standing in for an empty current price. */
  function HoldingRequestOf(accountId: int, form: HoldingForm): (r: HoldingRequest)
    ensures r.accountId == accountId && r.name == form.name
    ensures r.symbol == Upper(form.symbol) && HasNoLowerCase(r.symbol)
    ensures r.quantityText == form.quantity && r.averageCostText == form.averageCost
    ensures form.currentPrice != "" ==> r.currentPriceText == form.currentPrice
    ensures form.currentPrice == "" ==> r.currentPriceText == form.averageCost
  {
    UpperIsUpper(form.symbol);
    HoldingRequest(accountId, Upper(form.symbol), form.name, form.quantity, form.averageCost,
                   if form.currentPrice != "" then form.currentPrice else form.averageCost)
  }

  /** A holding as the portfolio summary lists it; `gainLoss` and
      `gainLossPct` may be missing (read as 0), `isHalal` may be unknown. */
  datatype Holding = Holding(id: int, symbol: string, name: string, quantity: real, averageCost: real,
                             currentPrice: real, totalValue: real, gainLoss: Option<real>,
                             gainLossPct: Option<real>, isHalal: Option<bool>)

  /** An investment account with its holdings. */
  datatype Account = Account(id: int, name: string, accountType: string, broker: string,
                             totalValue: real, totalCost: real, gainLoss: Option<real>,
                             gainLossPct: Option<real>, holdings: seq<Holding>)

  /** The portfolio summary: the totals and the accounts. */
  datatype Portfolio = Portfolio(totalValue: real, totalCost: real, totalGainLoss: Option<real>,
                                 totalGainLossPct: Option<real>, accounts: seq<Account>)

  /** The summary request's outcome: it fails, or it answers with a body that
      may be `null` (an empty reply). */
  datatype PortfolioReply = LoadFailed | Loaded(body: Option<Portfolio>)

  const LoadError := "Could not load portfolio. Make sure you have investment accounts set up."

  class InvestmentsPage {
    var portfolio: Option<Portfolio>
    var error: string
    var loading: bool
    var expandedAccount: Option<int>
    var showAccountForm: bool
    var accountForm: AccountForm
    var savingAccount: bool
    var addHoldingFor: Option<int>
    var holdingForm: HoldingForm
    var savingHolding: bool

    constructor ()
      ensures portfolio == None
      ensures error == "" && loading && expandedAccount == None
      ensures !showAccountForm && accountForm == EmptyAccountForm && !savingAccount
      ensures addHoldingFor == None && holdingForm == EmptyHoldingForm && !savingHolding
    {
      portfolio, error, loading, expandedAccount := None, "", true, None;
      showAccountForm, accountForm, savingAccount := false, EmptyAccountForm, false;
      addHoldingFor, holdingForm, savingHolding := None, EmptyHoldingForm, false;
    }

    /** Loading the portfolio clears the error; an answer replaces the
        portfolio with its body (`null` included), and a failed request keeps
        the portfolio and sets the load error. */
    method Load(reply: PortfolioReply)
      modifies this
      ensures reply.Loaded? ==> portfolio == reply.body && error == ""
      ensures reply.LoadFailed? ==> portfolio == old(portfolio) && error == LoadError
      ensures !loading
      ensures expandedAccount == old(expandedAccount) && addHoldingFor == old(addHoldingFor)
      ensures holdingForm == old(holdingForm) && accountForm == old(accountForm)
      ensures showAccountForm == old(showAccountForm)
      ensures savingAccount == old(savingAccount) && savingHolding == old(savingHolding)
    {
      loading := true;
      error := "";
      if reply.Loaded? {
        portfolio := reply.body;
      } else {
        error := LoadError;
      }
      loading := false;
    }

    /** Clicking an account's header: the expanded account collapses, any
        other becomes the only one expanded. */
    method ToggleExpand(id: int)
      modifies this
      ensures expandedAccount == Some(id) <==> old(expandedAccount) != Some(id)
      ensures forall other :: other != id ==> expandedAccount != Some(other)
      ensures error == old(error) && loading == old(loading) && addHoldingFor == old(addHoldingFor)
      ensures holdingForm == old(holdingForm) && accountForm == old(accountForm)
      ensures showAccountForm == old(showAccountForm)
      ensures savingAccount == old(savingAccount) && savingHolding == old(savingHolding)
      ensures portfolio == old(portfolio)
    {
      expandedAccount := if expandedAccount == Some(id) then None else Some(id);
    }

    /** "+ Add Holding" on an account opens the form for it, emptied. */
    method OpenAddHolding(accountId: int)
      modifies this
      ensures addHoldingFor == Some(accountId) && holdingForm == EmptyHoldingForm
      ensures error == old(error) && loading == old(loading) && expandedAccount == old(expandedAccount)
      ensures accountForm == old(accountForm) && showAccountForm == old(showAccountForm)
      ensures savingAccount == old(savingAccount) && savingHolding == old(savingHolding)
      ensures portfolio == old(portfolio)
    {
      addHoldingFor := Some(accountId);
      holdingForm := EmptyHoldingForm;
    }

    /** Adds the holding in the form to the targeted account. Without a
        target, or with account id 0 (falsy), nothing is sent and nothing
        changes. On success the form closes, is emptied and the portfolio is
        reloaded; on failure the form stays as it was. */
    method HandleAddHolding(ok: bool) returns (request: Option<HoldingRequest>, reload: bool)
      modifies this
      ensures old(addHoldingFor).None? || old(addHoldingFor) == Some(0) ==>
                request == None && !reload && addHoldingFor == old(addHoldingFor)
                && holdingForm == old(holdingForm) && savingHolding == old(savingHolding)
      ensures old(addHoldingFor).Some? && old(addHoldingFor) != Some(0) ==>
                request == Some(HoldingRequestOf(old(addHoldingFor).value, old(holdingForm)))
                && (reload <==> ok) && !savingHolding
      ensures old(addHoldingFor).Some? && old(addHoldingFor) != Some(0) && ok ==>
                addHoldingFor == None && holdingForm == EmptyHoldingForm
      ensures old(addHoldingFor).Some? && old(addHoldingFor) != Some(0) && !ok ==>
                addHoldingFor == old(addHoldingFor) && holdingForm == old(holdingForm)
      ensures error == old(error) && loading == old(loading) && expandedAccount == old(expandedAccount)
      ensures accountForm == old(accountForm) && showAccountForm == old(showAccountForm)
      ensures savingAccount == old(savingAccount) && portfolio == old(portfolio)
    {
      request, reload := None, false;
      if addHoldingFor.None? || addHoldingFor.value == 0 {
        return;
      }
      savingHolding := true;
      request := Some(HoldingRequestOf(addHoldingFor.value, holdingForm));
      if ok {
        addHoldingFor := None;
        holdingForm := EmptyHoldingForm;
        reload := true;
      }
      savingHolding := false;
    }

    /** Adds the account in the form: on success the form closes, is emptied
        and the portfolio is reloaded. */
    method HandleAddAccount(ok: bool) returns (request: AccountForm, reload: bool)
      modifies this
      ensures request == old(accountForm)
      ensures reload <==> ok
      ensures ok ==> !showAccountForm && accountForm == EmptyAccountForm
      ensures !ok ==> showAccountForm == old(showAccountForm) && accountForm == old(accountForm)
      ensures !savingAccount
      ensures error == old(error) && loading == old(loading) && expandedAccount == old(expandedAccount)
      ensures addHoldingFor == old(addHoldingFor) && holdingForm == old(holdingForm)
      ensures savingHolding == old(savingHolding) && portfolio == old(portfolio)
    {
      savingAccount := true;
      request := accountForm;
      reload := false;
      if ok {
        showAccountForm := false;
        accountForm := EmptyAccountForm;
        reload := true;
      }
      savingAccount := false;
    }
  }
}
