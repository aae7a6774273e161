/** The store of delivery records and the three actions that change it:
    `findIndexByRef`, the data half of `addEntrega`, `editTotal` and
    `removeDelivery` in cloud_sync.js. */
module Store {
  import opened Wrappers
  import opened Records

  /** Whether a stored record answers to a lookup key. The key is the
      card's own `ref`, which may be missing; a missing key matches no
      record, since a record's `ref` is always read as a string. */
  predicate RefMatches(r: Record, key: Option<string>) {
    key == Some(RefKey(r))
  }

  /** `findIndexByRef`: the index of the first record matching `key`, or -1. */
  function FindIndexByRef(ds: seq<Record>, key: Option<string>): (i: int)
    ensures -1 <= i < |ds|
    ensures i >= 0 ==> RefMatches(ds[i], key)
    ensures i >= 0 ==> forall j :: 0 <= j < i ==> !RefMatches(ds[j], key)
    ensures i == -1 <==> forall j :: 0 <= j < |ds| ==> !RefMatches(ds[j], key)
  {
    if ds == [] then -1
    else if RefMatches(ds[0], key) then 0
    else
      var i := FindIndexByRef(ds[1..], key);
      if i < 0 then -1 else i + 1
  }

  /** The derived flow fields of a record agree with its card:
      `flow.entregado` is the delivered sum and `flow.fab` what is pending. */
  predicate FlowInSync(r: Record) {
    && ENTREGADO in r.flow && r.flow[ENTREGADO] == Normalize(r).delivered
    && FAB in r.flow && r.flow[FAB] == Normalize(r).pending
  }

  /** Recomputes `flow.entregado` and `flow.fab` from a total and a
      delivered sum, keeping every other phase of the flow map. */
  function SyncFlow(flow: map<string, int>, total: int, delivered: int): (f: map<string, int>)
    ensures f.Keys == flow.Keys + {ENTREGADO, FAB}
    ensures f[ENTREGADO] == delivered && f[FAB] == Max(0, total - delivered)
    ensures forall k :: k in flow && k != ENTREGADO && k != FAB ==> f[k] == flow[k]
  {
    flow[ENTREGADO := delivered][FAB := Max(0, total - delivered)]
  }

  /** The record after a delivery of `qty` dated `date` is recorded: the
      entry is appended and the flow fields recomputed. */
  function AppendDelivery(r: Record, date: string, qty: int): (r': Record)
    ensures HistoryOf(r') == HistoryOf(r) + [Entry(date, Some(qty))]
    ensures r'.ref == r.ref && r'.total == r.total && r'.stage == r.stage
    ensures Normalize(r').delivered == Normalize(r).delivered + qty
    ensures FlowInSync(r')
    ensures r'.flow.Keys == r.flow.Keys + {ENTREGADO, FAB}
    ensures forall k :: k in r.flow && k != ENTREGADO && k != FAB ==> r'.flow[k] == r.flow[k]
  {
    var h := HistoryOf(r) + [Entry(date, Some(qty))];
    assert h[..|h| - 1] == HistoryOf(r);
    r.(history := Some(h), flow := SyncFlow(r.flow, TotalOf(r), SumQty(h)))
  }

  /** The record after its total is replaced by `total`, with the flow
      fields recomputed against the unchanged history. */
  function ReplaceTotal(r: Record, total: int): (r': Record)
    ensures r'.total == Some(total) && Normalize(r').total == total
    ensures r'.history == r.history && r'.ref == r.ref && r'.stage == r.stage
    ensures Normalize(r').delivered == Normalize(r).delivered
    ensures FlowInSync(r')
    ensures r'.flow.Keys == r.flow.Keys + {ENTREGADO, FAB}
    ensures forall k :: k in r.flow && k != ENTREGADO && k != FAB ==> r'.flow[k] == r.flow[k]
  {
    r.(total := Some(total), flow := SyncFlow(r.flow, total, Delivered(r)))
  }

  /** Position of a stage along the inferred lifecycle. */
  function StageRank(s: string): nat {
    if s == ENTREGADO then 2 else if s == FAB then 1 else 0
  }

  /** Recording a positive delivery never moves an inferred stage backwards
      and never increases what is pending. */
  lemma AppendDeliveryNeverRegresses(r: Record, date: string, qty: int)
    requires qty > 0 && !HasStageOverride(r)
    ensures StageRank(Normalize(AppendDelivery(r, date, qty)).stage) >= StageRank(Normalize(r).stage)
    ensures Normalize(AppendDelivery(r, date, qty)).pending <= Normalize(r).pending
  {
    var r' := AppendDelivery(r, date, qty);
    assert !HasStageOverride(r');
  }

  /** Adding 4 to a record with total 10 and a delivery of 3 gives 7
      delivered, 3 pending, 70%, and the same figures in the flow map. */
  lemma AppendDeliveryExample()
    ensures var r := AppendDelivery(Record(Some("A1"), Some(10), Some([Entry("d1", Some(3))]), None, map[]), "d2", 4);
      var n := Normalize(r);
      n.delivered == 7 && n.pending == 3 && n.pct == 70 && r.flow[ENTREGADO] == 7 && r.flow[FAB] == 3
  {
    var h := [Entry("d1", Some(3)), Entry("d2", Some(4))];
    assert h[..1] == [Entry("d1", Some(3))] && h[..1][..0] == [];
  }

  /** The list `removeDelivery` stores: every record whose key is `key` is
      dropped, the rest kept in order. */
  function RemoveByRef(ds: seq<Record>, key: string): (r: seq<Record>)
    ensures |r| <= |ds|
    ensures forall i :: 0 <= i < |r| ==> r[i] in ds && RefKey(r[i]) != key
    ensures forall x :: x in ds && RefKey(x) != key ==> x in r
  {
    if ds == [] then []
    else (if RefKey(ds[0]) == key then [] else [ds[0]]) + RemoveByRef(ds[1..], key)
  }

  /** Removal works piecewise, so the survivors keep their relative order. */
  lemma {:induction false} RemoveByRefConcat(a: seq<Record>, b: seq<Record>, key: string)
    ensures RemoveByRef(a + b, key) == RemoveByRef(a, key) + RemoveByRef(b, key)
  {
    if a == [] {
      assert a + b == b;
    } else {
      assert (a + b)[1..] == a[1..] + b;
      RemoveByRefConcat(a[1..], b, key);
    }
  }

  /** The list is left as it was exactly when no record has the key. */
  lemma {:induction false} RemoveByRefUnchangedIff(ds: seq<Record>, key: string)
    ensures RemoveByRef(ds, key) == ds <==> forall i :: 0 <= i < |ds| ==> RefKey(ds[i]) != key
  {
    if forall i :: 0 <= i < |ds| ==> RefKey(ds[i]) != key {
      if ds != [] {
        RemoveByRefUnchangedIff(ds[1..], key);
        assert forall i :: 0 <= i < |ds[1..]| ==> RefKey(ds[1..][i]) != key by {
          forall i | 0 <= i < |ds[1..]| ensures RefKey(ds[1..][i]) != key {
            assert ds[1..][i] == ds[i + 1];
          }
        }
        assert ds == [ds[0]] + ds[1..];
      }
    }
  }

  /** Removing twice removes nothing more. */
  lemma RemoveByRefIdempotent(ds: seq<Record>, key: string)
    ensures RemoveByRef(RemoveByRef(ds, key), key) == RemoveByRef(ds, key)
  {
    var r := RemoveByRef(ds, key);
    RemoveByRefUnchangedIff(r, key);
  }

  /** After a removal, no record can be found under the removed key. */
  lemma RemovedRefNotFound(ds: seq<Record>, key: string)
    ensures FindIndexByRef(RemoveByRef(ds, key), Some(key)) == -1
  {
  }

  /** A prompted number: cancelled, not a finite number, or a finite value. */
  datatype NumberAnswer = Cancelled | NotFinite | Finite(n: int)

  /** How an action ends. `Aborted` is a silent return; the three
      failures are the alerts shown to the user. */
  datatype Outcome = Done | Aborted | InvalidQuantity | InvalidTotal | NotFound

  /** `loadDB`/`saveDB` are replaced by this in-memory store. */
  class DB {
    var deliveries: seq<Record>

    constructor (ds: seq<Record>)
      ensures deliveries == ds
    {
      deliveries := ds;
    }

    /** `addEntrega`: record a partial delivery on the record the card `key` names. */
    method AddEntrega(key: Option<string>, qty: NumberAnswer, date: Option<string>) returns (o: Outcome)
      modifies this
      ensures o == Aborted <==> qty.Cancelled? || (qty.Finite? && qty.n > 0 && (date.None? || date.value == ""))
      ensures o == InvalidQuantity <==> qty.NotFinite? || (qty.Finite? && qty.n <= 0)
      ensures o == NotFound <==>
        qty.Finite? && qty.n > 0 && date.Some? && date.value != "" && FindIndexByRef(old(deliveries), key) < 0
      ensures o != Done ==> deliveries == old(deliveries)
      ensures o == Done ==>
        var i := FindIndexByRef(old(deliveries), key);
        0 <= i < |old(deliveries)| &&
        deliveries == old(deliveries)[i := AppendDelivery(old(deliveries)[i], date.value, qty.n)]
    {
      if qty.Cancelled? {
        return Aborted;
      }
      if qty.NotFinite? || qty.n <= 0 {
        return InvalidQuantity;
      }
      if date.None? || date.value == "" {
        return Aborted;
      }
      var idx := FindIndexByRef(deliveries, key);
      if idx < 0 {
        return NotFound;
      }
      var item := deliveries[idx];
      var history := HistoryOf(item) + [Entry(date.value, Some(qty.n))];
      item := item.(history := Some(history));
      var flow := item.flow;
      var delivered := SumQty(history);
      var total := TotalOf(item);
      flow := flow[ENTREGADO := delivered];
      flow := flow[FAB := Max(0, total - delivered)];
      item := item.(flow := flow);
      deliveries := deliveries[idx := item];
      o := Done;
    }

    /** `editTotal`: replace the total of the record the card `key` names. */
    method EditTotal(key: Option<string>, total: NumberAnswer) returns (o: Outcome)
      modifies this
      ensures o == NotFound <==> FindIndexByRef(old(deliveries), key) < 0
      ensures o == Aborted <==> FindIndexByRef(old(deliveries), key) >= 0 && total.Cancelled?
      ensures o == InvalidTotal <==>
        FindIndexByRef(old(deliveries), key) >= 0 && (total.NotFinite? || (total.Finite? && total.n < 0))
      ensures o != Done ==> deliveries == old(deliveries)
      ensures o == Done ==>
        var i := FindIndexByRef(old(deliveries), key);
        0 <= i < |old(deliveries)| && total.Finite? && total.n >= 0 &&
        deliveries == old(deliveries)[i := ReplaceTotal(old(deliveries)[i], total.n)]
    {
      var idx := FindIndexByRef(deliveries, key);
      if idx < 0 {
        return NotFound;
      }
      if total.Cancelled? {
        return Aborted;
      }
      if total.NotFinite? || total.n < 0 {
        return InvalidTotal;
      }
      var item := deliveries[idx];
      item := item.(total := Some(total.n));
      var delivered := Delivered(item);
      var flow := item.flow;
      flow := flow[ENTREGADO := delivered];
      flow := flow[FAB := Max(0, total.n - delivered)];
      item := item.(flow := flow);
      deliveries := deliveries[idx := item];
      o := Done;
    }

    /** `removeDelivery`: once confirmed, drop every record whose key is the
        card's `ref` (missing read as ""). */
    method RemoveDelivery(key: Option<string>, confirmed: bool)
      modifies this
      ensures deliveries == if confirmed then RemoveByRef(old(deliveries), OrEmpty(key)) else old(deliveries)
    {
      if !confirmed {
        return;
      }
      deliveries := RemoveByRef(deliveries, OrEmpty(key));
    }
  }
}
