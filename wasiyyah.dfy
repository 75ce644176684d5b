/** The Wasiyyah (Islamic will) page: the beneficiaries' shares are summed and
    the total is checked against the advisory one-third ceiling. */
module Wasiyyah {
  import opened Common

  datatype Beneficiary = Beneficiary(id: int, name: string, relationship: string,
                                     sharePercentage: Option<real>, notes: string)

  datatype WasiyyahData = WasiyyahData(beneficiaries: Option<seq<Beneficiary>>, lastUpdated: string,
                                       totalShareAllocated: Option<real>)

  /** What the list endpoint may answer: a bare array of beneficiaries, the
      server's own record, or an empty body (read as `null`). */
  datatype WasiyyahReply = BeneficiaryList(list: seq<Beneficiary>) | Record(data: WasiyyahData) | NullBody

  /** The advisory ceiling for bequests to non-heirs, in percent. */
  const OneThirdPercent: real := 33.3

  /** `b.sharePercentage || 0`. */
  function ShareOrZero(b: Beneficiary): real { b.sharePercentage.GetOr(0.0) }

  /** The total of all shares, a missing share counting as 0. */
  function TotalShare(bs: seq<Beneficiary>): real { SumOf(bs, ShareOrZero) }

  predicate HasShare(b: Beneficiary) { b.sharePercentage.Some? }

  /** Beneficiaries without a share contribute nothing: the total is the sum
      over those that have one. */
  lemma {:induction false} MissingSharesCountZero(bs: seq<Beneficiary>)
    ensures TotalShare(bs) == TotalShare(Filter(bs, HasShare))
  {
    if bs != [] {
      var b, rest := bs[0], bs[1..];
      MissingSharesCountZero(rest);
      assert bs == [b] + rest;
      SumOfCons(b, rest, ShareOrZero);
      if HasShare(b) {
        assert Filter(bs, HasShare) == [b] + Filter(rest, HasShare);
        SumOfCons(b, Filter(rest, HasShare), ShareOrZero);
      } else {
        assert Filter(bs, HasShare) == Filter(rest, HasShare);
        assert ShareOrZero(b) == 0.0;
      }
    }
  }

  /** Adding a beneficiary raises the total by that beneficiary's share (or 0). */
  lemma {:induction false} TotalShareAdd(bs: seq<Beneficiary>, b: Beneficiary)
    ensures TotalShare(bs + [b]) == TotalShare(bs) + ShareOrZero(b)
  {
    SumOfAppend(bs, [b], ShareOrZero);
    assert [b][..0] == [];
  }

  /** The page data set from a reply: an array is wrapped with its computed
      total, a record is taken as the server sent it, an empty body is `null`. */
  function FromReply(reply: WasiyyahReply): (d: Option<WasiyyahData>)
    ensures reply.BeneficiaryList? ==>
              d == Some(WasiyyahData(Some(reply.list), "", Some(TotalShare(reply.list))))
    ensures reply.Record? ==> d == Some(reply.data)
    ensures reply.NullBody? ==> d == None
  {
    match reply
    case BeneficiaryList(list) => Some(WasiyyahData(Some(list), "", Some(TotalShare(list))))
    case Record(data) => Some(data)
    case NullBody => None
  }

  /** The data after loading: a failed request (`None`) leaves it `null`. */
  function Load(reply: Option<WasiyyahReply>): (d: Option<WasiyyahData>)
    ensures reply == None ==> d == None
  {
    match reply
    case None => None
    case Some(r) => FromReply(r)
  }

  datatype Advisory = WithinOneThird | ExceedsOneThird
  datatype BarColour = Green | Red

  datatype WasiyyahView = WasiyyahView(totalShare: real, beneficiaries: seq<Beneficiary>,
                                       advisory: Advisory, colour: BarColour, barWidth: real)

  /** `Math.min(total, 100)`: the width of the bar, in percent. */
  function BarWidth(total: real): (w: real)
    ensures w <= 100.0
    ensures total <= 100.0 ==> w == total
    ensures total > 100.0 ==> w == 100.0
  {
    Min(total, 100.0)
  }

  /** The page for the loaded data. */
  function Render(data: Option<WasiyyahData>): (v: WasiyyahView)
    ensures data.None? ==> v.beneficiaries == [] && v.totalShare == 0.0
    ensures data.Some? ==> v.beneficiaries == data.value.beneficiaries.GetOr([])
                           && v.totalShare == data.value.totalShareAllocated.GetOr(0.0)
    ensures v.advisory == WithinOneThird <==> v.totalShare <= OneThirdPercent
    ensures v.colour == Green <==> v.advisory == WithinOneThird
    ensures v.barWidth == BarWidth(v.totalShare) && v.barWidth <= 100.0
  {
    var bs := if data.Some? then data.value.beneficiaries.GetOr([]) else [];
    var total := if data.Some? then data.value.totalShareAllocated.GetOr(0.0) else 0.0;
    var within := total <= OneThirdPercent;
    WasiyyahView(total, bs, if within then WithinOneThird else ExceedsOneThird,
                 if within then Green else Red, BarWidth(total))
  }

  /** For an array reply the page shows the array and the sum of its shares,
      and warns exactly when that sum is above one third. */
  lemma ArrayReplyShowsItsSum(list: seq<Beneficiary>)
    ensures Render(Load(Some(BeneficiaryList(list)))).beneficiaries == list
    ensures Render(Load(Some(BeneficiaryList(list)))).totalShare == TotalShare(list)
    ensures Render(Load(Some(BeneficiaryList(list)))).advisory == ExceedsOneThird
            <==> TotalShare(list) > OneThirdPercent
  {
  }
}
