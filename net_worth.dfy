/** The net-worth page: the snapshot history newest first, the current
    snapshot, the change since the previous one and the per-row deltas. */
module NetWorth {
  import opened Common

  /** A snapshot; `date` is the snapshot's timestamp. */
  datatype Snapshot = Snapshot(date: int, totalAssets: real, totalLiabilities: real, netWorth: real,
                               zakatableWealth: Option<real>, zakatDue: Option<real>)

  function DateKey(s: Snapshot): real { s.date as real }

  /** The history endpoint's reply: a failed request, or a body that is an
      array or `null`. */
  datatype HistoryReply = Failed | Body(snapshots: Option<array<Snapshot>>)

  const LoadError := "Could not load net worth history."
  const SnapshotError := "Failed to take snapshot. Make sure you have assets tracked."

  /** `sorted[0] || null`. */
  function Newest(history: seq<Snapshot>): (c: Option<Snapshot>)
    ensures c.None? <==> history == []
    ensures c.Some? ==> c.value == history[0]
  {
    if history == [] then None else Some(history[0])
  }

  /** The change since the previous snapshot: defined only with two or more
      snapshots. */
  function Change(history: seq<Snapshot>): (c: Option<real>)
    ensures c.Some? <==> |history| >= 2
    ensures c.Some? ==> c.value == history[0].netWorth - history[1].netWorth
  {
    if |history| >= 2 then Some(history[0].netWorth - history[1].netWorth) else None
  }

  /** The green ▲ shows for a change that exists and is not negative. */
  predicate Rising(change: Option<real>) {
    change.Some? && change.value >= 0.0
  }

  /** A row of the history table and its delta against the next, older, row. */
  datatype HistoryRow = HistoryRow(snapshot: Snapshot, delta: Option<real>)

  function Rows(history: seq<Snapshot>): (r: seq<HistoryRow>)
    ensures |r| == |history|
    ensures forall i :: 0 <= i < |r| ==> r[i].snapshot == history[i]
    ensures forall i :: 0 <= i < |r| - 1 ==> r[i].delta == Some(history[i].netWorth - history[i + 1].netWorth)
    ensures |r| > 0 ==> r[|r| - 1].delta == None
  {
    seq(|history|, i requires 0 <= i < |history| => RowAt(history, i))
  }

  /** Row `i`: the snapshot and, unless it is the oldest, its change against the next one. */
  function RowAt(history: seq<Snapshot>, i: nat): HistoryRow
    requires i < |history|
  {
    HistoryRow(history[i], if i + 1 < |history| then Some(history[i].netWorth - history[i + 1].netWorth) else None)
  }

  /** The table is shown only with more than one snapshot. */
  predicate ShowHistoryTable(history: seq<Snapshot>) {
    |history| > 1
  }

  /** The first row's delta is the change shown in the banner, and its arrow
      agrees with the banner's; the table appears exactly when there is a change. */
  lemma FirstRowIsChange(history: seq<Snapshot>)
    requires history != []
    ensures Rows(history)[0].delta == Change(history)
    ensures Rising(Rows(history)[0].delta) <==> Rising(Change(history))
    ensures ShowHistoryTable(history) <==> Change(history).Some?
  {
  }

  function DeltaOrZero(row: HistoryRow): real { row.delta.GetOr(0.0) }

  /** The rows after the first are the rows of the older snapshots. */
  lemma RowsTail(history: seq<Snapshot>)
    requires history != []
    ensures Rows(history) == [Rows(history)[0]] + Rows(history[1..])
  {
    var r, t := Rows(history), Rows(history[1..]);
    forall i | 0 <= i < |t| ensures r[i + 1] == t[i] {
      RowAfterFirst(history, i);
    }
    assert forall j :: 0 <= j < |r| ==> r[j] == ([r[0]] + t)[j];
  }

  /** Row `i + 1` of the history is row `i` of the older snapshots. */
  lemma RowAfterFirst(history: seq<Snapshot>, i: nat)
    requires i + 1 < |history|
    ensures Rows(history)[i + 1] == Rows(history[1..])[i]
  {
    var older := history[1..];
    assert Rows(history)[i + 1] == RowAt(history, i + 1);
    assert Rows(older)[i] == RowAt(older, i);
    assert older[i] == history[i + 1];
    if i + 1 < |older| {
      assert older[i + 1] == history[i + 2];
    }
  }

  /** The deltas telescope: together they account for the whole change from
      the oldest snapshot to the newest. */
  lemma {:induction false} DeltasTelescope(history: seq<Snapshot>)
    requires history != []
    ensures SumOf(Rows(history), DeltaOrZero) == history[0].netWorth - history[|history| - 1].netWorth
  {
    RowsTail(history);
    SumOfCons(Rows(history)[0], Rows(history[1..]), DeltaOrZero);
    if |history| > 1 {
      DeltasTelescope(history[1..]);
    } else {
      assert Rows(history[1..]) == [];
    }
  }

  class NetWorthPage {
    var history: seq<Snapshot>
    var current: Option<Snapshot>
    var error: string
    var loading: bool
    var snapping: bool

    /** The history is newest first and `current` is its head. */
    ghost predicate Valid()
      reads this
    {
      DescendingBy(history, DateKey) && current == Newest(history)
    }

    constructor ()
      ensures Valid()
      ensures history == [] && current == None && error == "" && loading && !snapping
    {
      history, current, error, loading, snapping := [], None, "", true, false;
    }

    /** Loads the history: the error is cleared, then a body becomes the
        history sorted newest first (`null` giving none), sorted on a copy so
        the response array is left as it was; a failure sets the load error
        and keeps the previous history. */
    method Load(reply: HistoryReply)
      requires Valid()
      modifies this
      ensures Valid()
      ensures !loading && snapping == old(snapping)
      ensures reply.Body? && reply.snapshots.Some? ==>
                multiset(history) == multiset(old(reply.snapshots.value[..]))
                && reply.snapshots.value[..] == old(reply.snapshots.value[..])
      ensures reply.Body? && reply.snapshots.None? ==> history == []
      ensures reply.Body? ==> error == ""
      ensures reply.Failed? ==> history == old(history) && current == old(current) && error == LoadError
    {
      loading := true;
      error := "";
      if reply.Body? {
        var received := if reply.snapshots.Some? then reply.snapshots.value[..] else [];
        var sorted := SortedDescendingBy(received, DateKey);
        history := sorted;
        current := Newest(sorted);
      } else {
        error := LoadError;
      }
      loading := false;
    }

    /** Takes a snapshot: success asks for a reload, failure sets the
        snapshot error; the history itself is left to the reload. */
    method TakeSnapshot(ok: bool) returns (reload: bool)
      requires Valid()
      modifies this
      ensures Valid()
      ensures reload <==> ok
      ensures !snapping
      ensures history == old(history) && current == old(current) && loading == old(loading)
      ensures ok ==> error == old(error)
      ensures !ok ==> error == SnapshotError
    {
      snapping := true;
      reload := ok;
      if !ok {
        error := SnapshotError;
      }
      snapping := false;
    }
  }
}
