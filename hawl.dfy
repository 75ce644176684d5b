/** The Hawl tracker page: the server's trackers split into complete and
    pending, and the progress bar drawn for each pending one. */
module Hawl {
  import opened Common

  /** A tracked asset as the server reports it; `daysRemaining` and
      `hawlComplete` are computed by the server. */
  datatype HawlItem = HawlItem(id: int, assetName: string, assetType: string, currentValue: real,
                               daysRemaining: int, hawlComplete: bool, zakatDue: real)

  /** The length of the lunar year the bar measures against, in days. */
  const LunarYearDays: int := 354

  predicate IsComplete(i: HawlItem) { i.hawlComplete }
  predicate IsPending(i: HawlItem) { !i.hawlComplete }

  function Complete(items: seq<HawlItem>): seq<HawlItem> { Filter(items, IsComplete) }
  function Pending(items: seq<HawlItem>): seq<HawlItem> { Filter(items, IsPending) }

  /** The split is a partition: complete items are exactly those with
      `hawlComplete`, pending ones exactly the others, nothing is lost or
      duplicated, and each part keeps the order of `items`. */
  lemma {:induction false} SplitIsPartition(items: seq<HawlItem>)
    ensures forall i :: i in Complete(items) <==> i in items && i.hawlComplete
    ensures forall i :: i in Pending(items) <==> i in items && !i.hawlComplete
    ensures |Complete(items)| + |Pending(items)| == |items|
    ensures multiset(Complete(items)) + multiset(Pending(items)) == multiset(items)
    ensures IsSubsequence(Complete(items), items) && IsSubsequence(Pending(items), items)
  {
    FilterPartition(items, IsComplete, IsPending);
    FilterIsSubsequence(items, IsComplete);
    FilterIsSubsequence(items, IsPending);
  }

  /** `Math.max(0, ((354 - daysRemaining) / 354) * 100)`, in percent. */
  function Progress(daysRemaining: int): (p: real)
    ensures p >= 0.0
  {
    Max(0.0, ((LunarYearDays - daysRemaining) as real / LunarYearDays as real) * 100.0)
  }

  /** Nothing done while a full year or more remains; the whole bar once none remains. */
  lemma ProgressEnds(daysRemaining: int)
    ensures daysRemaining >= LunarYearDays ==> Progress(daysRemaining) == 0.0
    ensures Progress(0) == 100.0
  {
  }

  /** The bar never shrinks as the remaining days fall. */
  lemma ProgressMonotone(d1: int, d2: int)
    requires d1 <= d2
    ensures Progress(d1) >= Progress(d2)
  {
    var a := ((LunarYearDays - d1) as real / LunarYearDays as real) * 100.0;
    var b := ((LunarYearDays - d2) as real / LunarYearDays as real) * 100.0;
    assert a >= b;
  }

  /** Within a year the value is a true percentage, and there is no upper
      clamp: a negative `daysRemaining` overflows the bar. */
  lemma ProgressRange(daysRemaining: int)
    ensures 0 <= daysRemaining <= LunarYearDays ==> 0.0 <= Progress(daysRemaining) <= 100.0
    ensures daysRemaining < 0 ==> Progress(daysRemaining) > 100.0
  {
  }

  /** A row of the page: complete items show the Zakat due, pending ones a bar. */
  datatype HawlRow = ZakatDueRow(item: HawlItem, zakatDue: real)
                   | ProgressRow(item: HawlItem, daysRemaining: int, progress: real)

  function DueRows(items: seq<HawlItem>): (r: seq<HawlRow>)
    ensures |r| == |items|
    ensures forall k :: 0 <= k < |r| ==> r[k] == ZakatDueRow(items[k], items[k].zakatDue)
    ensures forall row :: row in r ==> row.ZakatDueRow? && row.item in items
    ensures forall i :: i in items ==> ZakatDueRow(i, i.zakatDue) in r
  {
    var r := seq(|items|, k requires 0 <= k < |items| => ZakatDueRow(items[k], items[k].zakatDue));
    assert forall k :: 0 <= k < |items| ==> r[k] == ZakatDueRow(items[k], items[k].zakatDue);
    r
  }

  function BarRows(items: seq<HawlItem>): (r: seq<HawlRow>)
    ensures |r| == |items|
    ensures forall k :: 0 <= k < |r| ==>
              r[k] == ProgressRow(items[k], items[k].daysRemaining, Progress(items[k].daysRemaining))
    ensures forall row :: row in r ==> row.ProgressRow? && row.item in items && row.progress >= 0.0
    ensures forall i :: i in items ==> ProgressRow(i, i.daysRemaining, Progress(i.daysRemaining)) in r
  {
    var r := seq(|items|, k requires 0 <= k < |items| =>
      ProgressRow(items[k], items[k].daysRemaining, Progress(items[k].daysRemaining)));
    assert forall k :: 0 <= k < |items| ==>
      r[k] == ProgressRow(items[k], items[k].daysRemaining, Progress(items[k].daysRemaining));
    r
  }

  datatype HawlView = HawlView(total: nat, completeCount: nat, pendingCount: nat,
                               completeSection: seq<HawlRow>, pendingSection: seq<HawlRow>,
                               showEmpty: bool)

  /** The page for a list of trackers. */
  function Render(items: seq<HawlItem>): (v: HawlView)
    ensures v.total == |items| && v.completeCount + v.pendingCount == v.total
    ensures v.completeCount == |Complete(items)| && v.pendingCount == |Pending(items)|
    ensures v.completeSection == DueRows(Complete(items)) && v.pendingSection == BarRows(Pending(items))
    ensures v.showEmpty <==> items == []
    ensures forall row :: row in v.completeSection ==> row.ZakatDueRow? && row.item in items && row.item.hawlComplete
    ensures forall row :: row in v.pendingSection ==>
              row.ProgressRow? && row.item in items && !row.item.hawlComplete && row.progress >= 0.0
    ensures forall i :: i in items && !i.hawlComplete ==>
              ProgressRow(i, i.daysRemaining, Progress(i.daysRemaining)) in v.pendingSection
    ensures forall i :: i in items && i.hawlComplete ==> ZakatDueRow(i, i.zakatDue) in v.completeSection
  {
    SplitIsPartition(items);
    var c := Complete(items);
    var p := Pending(items);
    HawlView(|items|, |c|, |p|, DueRows(c), BarRows(p), |items| == 0)
  }
}
