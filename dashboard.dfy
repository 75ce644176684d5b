/** The single-page demo dashboard: its Zakat calculator, the overview lists,
    the halal-screener outcome, the data load and the add-asset form. */
module Dashboard {
  import opened Common

  datatype Asset = Asset(id: int, name: string, kind: string, value: real)

  datatype Transaction = Transaction(id: int, kind: string, category: string, amount: real, description: string)

  /** The quick-stats record; each figure may be missing. */
  datatype Stats = Stats(totalAssets: Option<real>, monthlyIncome: Option<real>,
                         monthlyExpenses: Option<real>, netIncome: Option<real>)

  // ---------------------------------------------------------------------------
  // Zakat calculator
  // ---------------------------------------------------------------------------

  /** The fixed Nisab threshold of the calculator, in dollars. */
  const Nisab: real := 5686.2

  /** Zakat is 2.5% of wealth. */
  const ZakatRate: real := 0.025

  function AssetValue(a: Asset): real { a.value }

  /** Total wealth: the values of all assets, summed in list order. */
  function TotalWealth(assets: seq<Asset>): real {
    SumOf(assets, AssetValue)
  }

  /** Whether Zakat is obligatory: wealth at or above the Nisab. */
  predicate ZakatObligatory(wealth: real) {
    wealth >= Nisab
  }

  /** The amount due: 2.5% of wealth once it reaches the Nisab, nothing below it. */
  function ZakatDue(wealth: real): (r: real)
    ensures ZakatObligatory(wealth) ==> r == wealth * ZakatRate
    ensures !ZakatObligatory(wealth) ==> r == 0.0
  {
    if wealth >= Nisab then wealth * ZakatRate else 0.0
  }

  datatype NisabMessage = ZakatIsObligatory | ZakatNotYetObligatory

  /** What the calculator shows, and the `zakat_calculated` event it reports. */
  datatype ZakatView = ZakatView(totalWealth: real, nisab: real, zakatDue: real,
                                 obligatory: bool, message: NisabMessage)

  function ZakatTab(assets: seq<Asset>): (v: ZakatView)
    ensures v.totalWealth == TotalWealth(assets) && v.nisab == Nisab
    ensures v.obligatory <==> v.totalWealth >= Nisab
    ensures v.message == ZakatIsObligatory <==> v.obligatory
    ensures v.zakatDue == ZakatDue(v.totalWealth)
  {
    var w := TotalWealth(assets);
    ZakatView(w, Nisab, ZakatDue(w), w >= Nisab,
              if w >= Nisab then ZakatIsObligatory else ZakatNotYetObligatory)
  }

  /** The flag and the amount never disagree: something is due exactly when
      Zakat is obligatory, and the boundary wealth = Nisab counts as due. */
  lemma ObligatoryIffSomethingDue(wealth: real)
    ensures ZakatObligatory(wealth) <==> ZakatDue(wealth) > 0.0
    ensures ZakatDue(Nisab) == Nisab * ZakatRate
  {
  }

  /** With non-negative wealth the amount due is never negative and never
      more than the wealth itself. */
  lemma ZakatDueBounds(wealth: real)
    requires wealth >= 0.0
    ensures 0.0 <= ZakatDue(wealth) <= wealth
  {
  }

  /** More wealth never means less Zakat. */
  lemma ZakatDueMonotone(w1: real, w2: real)
    requires w1 <= w2
    ensures ZakatDue(w1) <= ZakatDue(w2)
  {
  }

  /** Adding an asset adds its value to the total wealth. */
  lemma {:induction false} TotalWealthAdd(assets: seq<Asset>, a: Asset)
    ensures TotalWealth(assets + [a]) == TotalWealth(assets) + a.value
    ensures TotalWealth([a] + assets) == a.value + TotalWealth(assets)
  {
    SumOfAppend(assets, [a], AssetValue);
    assert [a][..0] == [];
    SumOfCons(a, assets, AssetValue);
  }

  /** Assets with non-negative values give non-negative wealth and a Zakat due
      no larger than that wealth; no assets at all owe nothing. */
  lemma {:induction false} ZakatOfAssets(assets: seq<Asset>)
    requires forall i :: 0 <= i < |assets| ==> assets[i].value >= 0.0
    ensures TotalWealth(assets) >= 0.0
    ensures 0.0 <= ZakatTab(assets).zakatDue <= TotalWealth(assets)
    ensures assets == [] ==> !ZakatTab(assets).obligatory && ZakatTab(assets).zakatDue == 0.0
  {
    SumOfNonNegative(assets, AssetValue);
  }

  // ---------------------------------------------------------------------------
  // Overview and transaction lists
  // ---------------------------------------------------------------------------

  /** `list.slice(0, 3)`. */
  function FirstThree<T>(s: seq<T>): (r: seq<T>)
    ensures |r| == if |s| < 3 then |s| else 3
    ensures forall i :: 0 <= i < |r| ==> r[i] == s[i]
  {
    if |s| < 3 then s else s[..3]
  }

  /** '+' for income, '-' for anything else. */
  function AmountSign(tx: Transaction): (c: char)
    ensures c == '+' <==> tx.kind == "income"
    ensures c == '+' || c == '-'
  {
    if tx.kind == "income" then '+' else '-'
  }

  datatype TransactionRow = TransactionRow(tx: Transaction, sign: char)

  function TransactionRows(txs: seq<Transaction>): (r: seq<TransactionRow>)
    ensures |r| == |txs|
    ensures forall i :: 0 <= i < |r| ==> r[i].tx == txs[i] && r[i].sign == AmountSign(txs[i])
  {
    seq(|txs|, i requires 0 <= i < |txs| => TransactionRow(txs[i], AmountSign(txs[i])))
  }

  datatype OverviewView = OverviewView(recentAssets: seq<Asset>, recentTransactions: seq<TransactionRow>)

  /** The overview: at most three assets and three transactions, in the order received. */
  function OverviewTab(assets: seq<Asset>, txs: seq<Transaction>): (v: OverviewView)
    ensures |v.recentAssets| == if |assets| < 3 then |assets| else 3
    ensures |v.recentTransactions| == if |txs| < 3 then |txs| else 3
    ensures forall i :: 0 <= i < |v.recentAssets| ==> v.recentAssets[i] == assets[i]
    ensures forall i :: 0 <= i < |v.recentTransactions| ==>
              v.recentTransactions[i].tx == txs[i]
              && (v.recentTransactions[i].sign == '+' <==> txs[i].kind == "income")
  {
    OverviewView(FirstThree(assets), TransactionRows(FirstThree(txs)))
  }

  // ---------------------------------------------------------------------------
  // Halal checker tab
  // ---------------------------------------------------------------------------

  datatype HalalReply = HalalReply(symbol: string, name: Option<string>, found: bool,
                                   isHalal: bool, reason: string)

  datatype ScreenerOutcome = Halal | Haram | NotFound

  /** The outcome reported for a search. */
  function Outcome(r: HalalReply): (o: ScreenerOutcome)
    ensures o == NotFound <==> !r.found
    ensures o == Halal <==> r.found && r.isHalal
    ensures o == Haram <==> r.found && !r.isHalal
  {
    if r.found then (if r.isHalal then Halal else Haram) else NotFound
  }

  /** The request path of a check: the symbol upper-cased as typed. */
  function CheckPath(symbol: string): (p: string)
    ensures p == "/api/halal/check/" + Upper(symbol)
    ensures HasNoLowerCase(p[|"/api/halal/check/"|..])
  {
    UpperIsUpper(symbol);
    "/api/halal/check/" + Upper(symbol)
  }

  // ---------------------------------------------------------------------------
  // Page state: loading the data, the add-asset form
  // ---------------------------------------------------------------------------

  /** A list reply's JSON body: `null`, or an object whose list field may be
      missing. */
  datatype ListBody<T> = NullBody | Body(list: Option<seq<T>>)

  /** The three parallel requests of a load: one fails (the load fails), or
      all three answer; a `null` statistics body is `None`. */
  datatype LoadReply = LoadFailed
                     | Loaded(stats: Option<Stats>, assets: ListBody<Asset>, transactions: ListBody<Transaction>)

  class DashboardPage {
    var stats: Option<Stats>
    var assets: seq<Asset>
    var transactions: seq<Transaction>
    var loading: bool

    constructor ()
      ensures stats == None && assets == [] && transactions == [] && loading
    {
      stats, assets, transactions, loading := None, [], [], true;
    }

    /** The statistics, the assets and the transactions are stored in that
        order, a missing list becoming empty. Reading the list of a `null`
        body throws, which ends the load with the later data unchanged; a
        failed load keeps everything. Either way loading ends. */
    method LoadData(reply: LoadReply)
      modifies this
      ensures !loading
      ensures reply.Loaded? ==> stats == reply.stats
      ensures reply.Loaded? && reply.assets.Body? ==> assets == reply.assets.list.GetOr([])
      ensures reply.Loaded? && reply.assets.Body? && reply.transactions.Body? ==>
                transactions == reply.transactions.list.GetOr([])
      ensures reply.Loaded? && reply.assets.NullBody? ==> assets == old(assets) && transactions == old(transactions)
      ensures reply.Loaded? && reply.transactions.NullBody? ==> transactions == old(transactions)
      ensures reply.LoadFailed? ==> stats == old(stats) && assets == old(assets)
                                    && transactions == old(transactions)
    {
      if reply.Loaded? {
        stats := reply.stats;
        if reply.assets.Body? {
          assets := reply.assets.list.GetOr([]);
          if reply.transactions.Body? {
            transactions := reply.transactions.list.GetOr([]);
          }
        }
      }
      loading := false;
    }
  }

  /** The form: a name, an asset type and the value as typed. */
  datatype AssetForm = AssetForm(name: string, kind: string, value: string)

  const EmptyAssetForm := AssetForm("", "cash", "")

  /** The body posted to `/api/assets/add`; `value` is the text handed to
      `parseFloat`. */
  datatype AssetPayload = AssetPayload(name: string, kind: string, valueText: string)

  class AssetsTab {
    var showForm: bool
    var form: AssetForm

    constructor ()
      ensures !showForm && form == EmptyAssetForm
    {
      showForm, form := false, EmptyAssetForm;
    }

    /** The "Add Asset" button toggles the form. */
    method ToggleForm()
      modifies this
      ensures showForm == !old(showForm) && form == old(form)
    {
      showForm := !showForm;
    }

    /** Posts the form. Unless the request itself is rejected (a network
        failure; an error status does not reject), the form is reset to
        `{name: '', type: 'cash', value: ''}`, closed and the data reloaded. */
    method AddAsset(networkFailed: bool) returns (payload: AssetPayload, refresh: bool)
      modifies this
      ensures payload == AssetPayload(old(form).name, old(form).kind, old(form).value)
      ensures refresh <==> !networkFailed
      ensures !networkFailed ==> form == EmptyAssetForm && !showForm
      ensures networkFailed ==> form == old(form) && showForm == old(showForm)
    {
      payload := AssetPayload(form.name, form.kind, form.value);
      refresh := false;
      if !networkFailed {
        form := EmptyAssetForm;
        showForm := false;
        refresh := true;
      }
    }
  }
}
