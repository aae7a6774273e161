/** Delivery records as stored under the "TallerFlowDB" key, and the
    derivation of the progress figures shown on each card
    (`sumDelivered` and `normalize` in cloud_sync.js). */
module Records {
  import opened Wrappers

  /** The three stages the derivation can infer. */
  const PREP := "prep"
  const FAB := "fab"
  const ENTREGADO := "entregado"

  /** One partial delivery. `qty` is `None` when the stored value is not a
      number (it then counts as 0). */
  datatype Entry = Entry(date: string, qty: Option<int>)

  /** A stored delivery record, restricted to the fields the core reads or
      writes. `None` stands for a missing field or one of the wrong type; a
      missing `flow` object is the empty map. */
  datatype Record = Record(
    ref: Option<string>,
    total: Option<int>,
    history: Option<seq<Entry>>,
    stage: Option<string>,
    flow: map<string, int>)

  /** What `normalize` returns for a record. */
  datatype Progress = Progress(total: int, delivered: int, pending: int, pct: int, stage: string)

  function Max(a: int, b: int): (m: int)
    ensures m >= a && m >= b && (m == a || m == b)
  {
    if a >= b then a else b
  }

  /** JavaScript's `s || ''` on an optional string. */
  function OrEmpty(s: Option<string>): string {
    s.GetOr("")
  }

  /** The key a record is looked up by: its `ref`, missing treated as "". */
  function RefKey(r: Record): string {
    OrEmpty(r.ref)
  }

  /** `Number(x?.qty) || 0`. */
  function QtyOf(e: Entry): int {
    e.qty.GetOr(0)
  }

  /** The history, a missing or non-array one read as empty. */
  function HistoryOf(r: Record): seq<Entry> {
    r.history.GetOr([])
  }

  /** `Number(d?.total) || 0`. */
  function TotalOf(r: Record): int {
    r.total.GetOr(0)
  }

  /** The sum of the quantities of a history, folded from the left as
      `Array.prototype.reduce` does. */
  function SumQty(h: seq<Entry>): (s: int)
    ensures (forall i :: 0 <= i < |h| ==> QtyOf(h[i]) >= 0) ==> s >= 0
    ensures (forall i :: 0 <= i < |h| ==> QtyOf(h[i]) == 0) ==> s == 0
  {
    if h == [] then 0 else SumQty(h[..|h| - 1]) + QtyOf(h[|h| - 1])
  }

  /** Summing a concatenation sums the parts: the order in which deliveries
      were recorded does not matter to the total delivered. */
  lemma {:induction false} SumQtyConcat(a: seq<Entry>, b: seq<Entry>)
    ensures SumQty(a + b) == SumQty(a) + SumQty(b)
  {
    if b == [] {
      assert a + b == a;
    } else {
      assert (a + b)[..|a + b| - 1] == a + b[..|b| - 1];
      SumQtyConcat(a, b[..|b| - 1]);
    }
  }

  /** With no negative quantities, every single delivery is bounded by the sum. */
  lemma {:induction false} SumQtyBoundsEach(h: seq<Entry>, k: int)
    requires forall i :: 0 <= i < |h| ==> QtyOf(h[i]) >= 0
    requires 0 <= k < |h|
    ensures QtyOf(h[k]) <= SumQty(h)
  {
    if k < |h| - 1 {
      SumQtyBoundsEach(h[..|h| - 1], k);
    } else {
      assert SumQty(h[..|h| - 1]) >= 0;
    }
  }

  /** `sumDelivered`: the quantity delivered so far. */
  function Delivered(r: Record): (d: int)
    ensures r.history.None? ==> d == 0
    ensures (forall i :: 0 <= i < |HistoryOf(r)| ==> QtyOf(HistoryOf(r)[i]) >= 0) ==> d >= 0
  {
    SumQty(HistoryOf(r))
  }

  /** The delivered percentage, `Math.round(delivered / total * 100)`, with
      halves rounded up; 0 when the total is not positive. */
  function Pct(total: int, delivered: int): (p: int)
    ensures total <= 0 ==> p == 0
    ensures total > 0 ==> 2 * total * p - total <= 200 * delivered < 2 * total * p + total
  {
    if total > 0 then (200 * delivered + total) / (2 * total) else 0
  }

  /** A positive multiple of `m > 0` is at least `m`. */
  lemma {:induction false} MultipleAtLeast(m: int, k: int)
    requires m > 0 && k >= 1
    ensures m * k >= m
  {
    if k > 1 {
      MultipleAtLeast(m, k - 1);
      assert m * k == m * (k - 1) + m;
    }
  }

  /** Comparing multiples of `m > 0` that differ by less than `m`. */
  lemma MultipleCompare(m: int, p: int, c: int)
    requires m > 0
    ensures m * p < m * c + m ==> p <= c
    ensures m * p > m * c - m ==> p >= c
  {
    if p > c {
      MultipleAtLeast(m, p - c);
      assert m * p == m * c + m * (p - c);
    } else if p < c {
      MultipleAtLeast(m, c - p);
      assert m * c == m * p + m * (c - p);
    }
  }

  /** At most one integer is within half a unit (half-open) of 100 * d / t. */
  lemma NearestPercentUnique(t: int, d: int, p: int, q: int)
    requires t > 0
    requires 2 * t * p - t <= 200 * d < 2 * t * p + t
    requires 2 * t * q - t <= 200 * d < 2 * t * q + t
    ensures p == q
  {
    MultipleCompare(2 * t, p, q);
  }

  /** The stage the history implies: delivered in full, partly delivered,
      or nothing delivered yet. */
  function InferStage(total: int, delivered: int): (s: string)
    ensures s == ENTREGADO <==> total > 0 && delivered >= total
    ensures s == FAB <==> !(total > 0 && delivered >= total) && delivered > 0
    ensures s == PREP <==> !(total > 0 && delivered >= total) && delivered <= 0
  {
    if total > 0 && delivered >= total then ENTREGADO
    else if delivered > 0 then FAB
    else PREP
  }

  /** A non-empty string `stage` field overrides the inference. */
  predicate HasStageOverride(r: Record) {
    r.stage.Some? && r.stage.value != ""
  }

  /** `normalize`: the figures shown on a record's card. */
  function Normalize(r: Record): (p: Progress)
    ensures p.total == TotalOf(r) && p.delivered == SumQty(HistoryOf(r))
    ensures p.pending >= 0 && p.pending >= p.total - p.delivered
    ensures p.pending == 0 || p.pending == p.total - p.delivered
    ensures p.total <= 0 ==> p.pct == 0
    ensures p.total > 0 ==> 2 * p.total * p.pct - p.total <= 200 * p.delivered < 2 * p.total * p.pct + p.total
    ensures HasStageOverride(r) ==> p.stage == r.stage.value
    ensures !HasStageOverride(r) ==> p.stage == InferStage(p.total, p.delivered)
  {
    var total := TotalOf(r);
    var delivered := Delivered(r);
    var stage := if HasStageOverride(r) then r.stage.value else InferStage(total, delivered);
    Progress(total, delivered, Max(0, total - delivered), Pct(total, delivered), stage)
  }

  /** A record delivered exactly in full shows 100%. */
  lemma PctOfFullDelivery(r: Record)
    requires TotalOf(r) > 0 && Delivered(r) == TotalOf(r)
    ensures Normalize(r).pct == 100
  {
    var t := TotalOf(r);
    NearestPercentUnique(t, t, Normalize(r).pct, 100);
  }

  /** While nothing has been over-delivered, the percentage lies in [0, 100]. */
  lemma PctWithinRange(r: Record)
    requires 0 <= Delivered(r) <= TotalOf(r)
    ensures 0 <= Normalize(r).pct <= 100
  {
    var n := Normalize(r);
    if n.total > 0 {
      MultipleCompare(2 * n.total, n.pct, 100);
      MultipleCompare(2 * n.total, n.pct, 0);
    }
  }

  /** Without an override, the inferred stage agrees with the figures on the
      card: a delivered record has nothing pending and shows at least 100%;
      a record in production with a positive total still has something
      pending and shows at most 100%; one in preparation shows at most 0%. */
  lemma InferredStageMatchesFigures(r: Record)
    requires !HasStageOverride(r)
    ensures var n := Normalize(r);
      (n.stage == ENTREGADO ==> n.pending == 0 && n.pct >= 100) &&
      (n.stage == FAB && n.total > 0 ==> n.pending > 0 && n.pct <= 100) &&
      (n.stage == PREP && n.total > 0 ==> n.pct <= 0)
  {
    var n := Normalize(r);
    if n.total > 0 {
      MultipleCompare(2 * n.total, n.pct, 100);
      MultipleCompare(2 * n.total, n.pct, 0);
    }
  }

  /** Without an override the stage is always one of the three inferred ones. */
  lemma {:induction false} InferredStageIsKnown(r: Record)
    requires !HasStageOverride(r)
    ensures Normalize(r).stage in {PREP, FAB, ENTREGADO}
  {
  }

  /** The three worked cases: 10 of 10 delivered, 3 of 10, and none. */
  lemma NormalizeExamples()
    ensures var r := Record(None, Some(10), Some([Entry("", Some(10))]), None, map[]);
      Normalize(r).stage == ENTREGADO && Normalize(r).pct == 100
    ensures var r := Record(None, Some(10), Some([Entry("", Some(3))]), None, map[]);
      Normalize(r).stage == FAB && Normalize(r).pct == 30
    ensures var r := Record(None, Some(10), Some([]), None, map[]);
      Normalize(r).stage == PREP && Normalize(r).pct == 0
  {
    var h10 := [Entry("", Some(10))];
    assert h10[..0] == [];
    var h3 := [Entry("", Some(3))];
    assert h3[..0] == [];
  }
}
