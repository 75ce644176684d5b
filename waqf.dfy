/** The waqf page: the total of all contributions and their sums per purpose,
    the count line and the card of each contribution. */
module Waqf {
  import opened Common

  /** The `amount` field as it may arrive: a number, `null`, or absent. */
  datatype Amount = Present(value: real) | Null | Absent

  datatype WaqfItem = WaqfItem(id: int, amount: Amount, purpose: string, organization: string,
                               date: int, status: string, notes: string)

  /** `i.amount || 0`: a missing or `null` amount counts as 0. */
  function AmountOrZero(i: WaqfItem): (r: real)
    ensures i.amount.Present? ==> r == i.amount.value
    ensures !i.amount.Present? ==> r == 0.0
  {
    if i.amount.Present? then i.amount.value else 0.0
  }

  /** The total of all contributions, summed in list order. */
  function Total(items: seq<WaqfItem>): real { SumOf(items, AmountOrZero) }

  function Purpose(i: WaqfItem): string { i.purpose }

  /** The purposes of the items, in list order. */
  function Purposes(items: seq<WaqfItem>): seq<string> { KeysOf(items, Purpose) }

  /** The amounts (missing as 0) of the items with purpose `p`, summed. */
  function PurposeSum(items: seq<WaqfItem>, p: string): real { GroupSum(items, Purpose, AmountOrZero, p) }

  /** The per-purpose sums, built by adding each item's amount (missing as 0)
      to its purpose's entry in a dictionary: the keys are exactly the
      purposes occurring in `items`, each holding the sum of its items, and
      the entries, listed in order of first occurrence, add up to the total. */
  method PurposeTotals(items: seq<WaqfItem>) returns (acc: map<string, real>)
    ensures forall p :: p in acc <==> exists k :: 0 <= k < |items| && items[k].purpose == p
    ensures forall p :: p in acc ==> acc[p] == PurposeSum(items, p)
    ensures MapSum(Distinct(Purposes(items)), acc) == Total(items)
  {
    acc := GroupTotals(items, Purpose, AmountOrZero);
    PurposesOccur(items);
  }

  /** The listed purposes are exactly those some contribution has. */
  lemma PurposesOccur(items: seq<WaqfItem>)
    ensures forall p :: p in Purposes(items) <==> exists k :: 0 <= k < |items| && items[k].purpose == p
  {
    var ps := Purposes(items);
    forall p | p in ps ensures exists k :: 0 <= k < |items| && items[k].purpose == p {
      var k :| 0 <= k < |ps| && ps[k] == p;
      assert items[k].purpose == p;
    }
    forall p | exists k :: 0 <= k < |items| && items[k].purpose == p ensures p in ps {
      var k :| 0 <= k < |items| && items[k].purpose == p;
      assert ps[k] == p;
    }
  }

  /** A contribution adds its amount (missing as 0) to its own purpose's sum
      and to the total, and leaves every other purpose's sum as it was. */
  lemma AppendItem(items: seq<WaqfItem>, it: WaqfItem, p: string)
    ensures PurposeSum(items + [it], p) == PurposeSum(items, p) + (if it.purpose == p then AmountOrZero(it) else 0.0)
    ensures Total(items + [it]) == Total(items) + AmountOrZero(it)
  {
    AppendToGroupSum(items, it, Purpose, AmountOrZero, p);
    SumOfSnoc(items, it, AmountOrZero);
  }

  /** A purpose no contribution has sums to 0. */
  lemma AbsentPurposeSumsToZero(items: seq<WaqfItem>, p: string)
    requires forall k :: 0 <= k < |items| ==> items[k].purpose != p
    ensures PurposeSum(items, p) == 0.0
  {
    GroupSumAbsent(items, Purpose, AmountOrZero, p);
  }

  // ---------------------------------------------------------------------------
  // The per-purpose reduce as written
  // ---------------------------------------------------------------------------

  /** A JavaScript number as far as this fold can produce one. */
  datatype Num = Val(x: real) | NaN

  /** `acc[p] || 0`: a missing entry, 0 and NaN all read as 0. */
  function OrZero(v: Option<Num>): (r: real)
    ensures v.Some? && v.value.Val? ==> r == v.value.x
    ensures v.None? || v.value.NaN? ==> r == 0.0
  {
    match v
    case None => 0.0
    case Some(NaN) => 0.0
    case Some(Val(x)) => x
  }

  /** `base + i.amount`: `null` adds 0, an absent amount gives NaN. */
  function PlusAmount(base: real, a: Amount): (n: Num)
    ensures n.NaN? <==> a.Absent?
  {
    match a
    case Present(x) => Val(base + x)
    case Null => Val(base)
    case Absent => NaN
  }

  function EntryOf(acc: map<string, Num>, p: string): Option<Num> {
    if p in acc then Some(acc[p]) else None
  }

  /** `acc[i.purpose] = (acc[i.purpose] || 0) + i.amount` over all items. */
  function PurposesAsWritten(items: seq<WaqfItem>): (acc: map<string, Num>)
    ensures forall p :: p in acc <==> p in Purposes(items)
  {
    if items == [] then map[]
    else
      var prev := PurposesAsWritten(items[..|items| - 1]);
      var it := items[|items| - 1];
      assert Purposes(items) == Purposes(items[..|items| - 1]) + [it.purpose];
      prev[it.purpose := PlusAmount(OrZero(EntryOf(prev, it.purpose)), it.amount)]
  }

  /** With no amount absent (a `null` amount adds 0), the fold as written
      gives the corrected sums. */
  lemma {:induction false} AsWrittenAgreesWhenPresent(items: seq<WaqfItem>)
    requires forall k :: 0 <= k < |items| ==> !items[k].amount.Absent?
    ensures forall p :: p in PurposesAsWritten(items) ==> PurposesAsWritten(items)[p] == Val(PurposeSum(items, p))
  {
    if items != [] {
      var init := items[..|items| - 1];
      AsWrittenAgreesWhenPresent(init);
      var it := items[|items| - 1];
      if it.purpose !in PurposesAsWritten(init) {
        GroupSumAbsent(init, Purpose, AmountOrZero, it.purpose);
      }
    }
  }

  /** One contribution without an amount makes its purpose's sum NaN, and the
      next contribution to the same purpose restarts the sum from 0, so the
      100 given earlier is lost, while the total still counts it. */
  lemma MissingAmountLosesEarlierSum()
    ensures var a := WaqfItem(1, Present(100.0), "masjid", "", 0, "", "");
            var b := WaqfItem(2, Absent, "masjid", "", 0, "", "");
            var c := WaqfItem(3, Present(50.0), "masjid", "", 0, "", "");
            PurposesAsWritten([a, b])["masjid"] == NaN
            && PurposesAsWritten([a, b, c])["masjid"] == Val(50.0)
            && PurposeSum([a, b, c], "masjid") == 150.0
            && Total([a, b, c]) == 150.0
  {
    var a := WaqfItem(1, Present(100.0), "masjid", "", 0, "", "");
    var b := WaqfItem(2, Absent, "masjid", "", 0, "", "");
    var c := WaqfItem(3, Present(50.0), "masjid", "", 0, "", "");
    assert [a, b, c][..2] == [a, b];
    assert [a, b][..1] == [a];
    assert [a][..0] == [];
    assert PurposesAsWritten([a]) == map["masjid" := Val(100.0)];
    assert PurposesAsWritten([a, b]) == map["masjid" := NaN];
    assert PurposesAsWritten([a, b, c]) == map["masjid" := Val(50.0)];
    AppendItem([], a, "masjid");
    assert [] + [a] == [a];
    AppendItem([a], b, "masjid");
    assert [a] + [b] == [a, b];
    AppendItem([a, b], c, "masjid");
    assert [a, b] + [c] == [a, b, c];
  }

  // ---------------------------------------------------------------------------
  // Labels and cards
  // ---------------------------------------------------------------------------

  /** The plural ending of "N contribution(s) made". */
  function PluralEnding(n: nat): (e: string)
    ensures e == "s" <==> n != 1
    ensures e == "" <==> n == 1
  {
    if n != 1 then "s" else ""
  }

  /** The card's title: the organisation when given, else the purpose. */
  function DisplayName(item: WaqfItem): (s: string)
    ensures item.organization != "" ==> s == item.organization
    ensures item.organization == "" ==> s == item.purpose
  {
    if item.organization != "" then item.organization else item.purpose
  }

  datatype Badge = ActiveBadge | OtherBadge

  /** The status badge: none for an empty status, green for "ACTIVE". */
  function StatusBadge(item: WaqfItem): (b: Option<Badge>)
    ensures b.None? <==> item.status == ""
    ensures b == Some(ActiveBadge) <==> item.status == "ACTIVE"
  {
    if item.status == "" then None
    else if item.status == "ACTIVE" then Some(ActiveBadge)
    else Some(OtherBadge)
  }

  class WaqfPage {
    var items: seq<WaqfItem>
    var loading: bool

    constructor ()
      ensures items == [] && loading
    {
      items, loading := [], true;
    }

    /** The reply replaces the list; a failed request leaves it empty as it was. */
    method Load(reply: Option<seq<WaqfItem>>)
      modifies this
      ensures reply.Some? ==> items == reply.value
      ensures reply.None? ==> items == old(items)
      ensures !loading
    {
      if reply.Some? {
        items := reply.value;
      }
      loading := false;
    }
  }
}
