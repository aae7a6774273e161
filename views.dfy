/** The records `render` shows: each record paired with its derived
    progress, kept when the selected filter allows its stage. */
module Views {
  import opened Records

  const ALL := "all"

  /** A record together with its `normalize` figures, as handed to a card. */
  datatype Shown = Shown(d: Record, n: Progress)

  /** The filter test: "all" keeps everything, any other filter keeps the
      records whose derived stage is exactly that string. */
  predicate Visible(n: Progress, filter: string) {
    filter == ALL || n.stage == filter
  }

  /** `deliveries.map(normalize).filter(...)`. */
  function ToShow(ds: seq<Record>, filter: string): (r: seq<Shown>)
    ensures |r| <= |ds|
    ensures forall i :: 0 <= i < |r| ==> r[i].d in ds && r[i].n == Normalize(r[i].d) && Visible(r[i].n, filter)
    ensures forall x :: x in ds && Visible(Normalize(x), filter) ==> Shown(x, Normalize(x)) in r
    ensures filter == ALL ==> |r| == |ds| && forall i :: 0 <= i < |r| ==> r[i].d == ds[i]
  {
    if ds == [] then []
    else
      var n := Normalize(ds[0]);
      (if Visible(n, filter) then [Shown(ds[0], n)] else []) + ToShow(ds[1..], filter)
  }

  /** Filtering works piecewise, so the shown records keep the stored order. */
  lemma {:induction false} ToShowConcat(a: seq<Record>, b: seq<Record>, filter: string)
    ensures ToShow(a + b, filter) == ToShow(a, filter) + ToShow(b, filter)
  {
    if a == [] {
      assert a + b == b;
    } else {
      assert (a + b)[1..] == a[1..] + b;
      ToShowConcat(a[1..], b, filter);
    }
  }

  /** When no record overrides its stage, the "prep", "fab" and "entregado"
      filters split the records between them: each record is shown under
      exactly one of the three. */
  lemma {:induction false} StageFiltersPartition(ds: seq<Record>)
    requires forall i :: 0 <= i < |ds| ==> !HasStageOverride(ds[i])
    ensures |ToShow(ds, PREP)| + |ToShow(ds, FAB)| + |ToShow(ds, ENTREGADO)| == |ds|
  {
    if ds != [] {
      assert forall i :: 0 <= i < |ds[1..]| ==> !HasStageOverride(ds[1..][i]) by {
        forall i | 0 <= i < |ds[1..]| ensures !HasStageOverride(ds[1..][i]) {
          assert ds[1..][i] == ds[i + 1];
        }
      }
      StageFiltersPartition(ds[1..]);
      InferredStageIsKnown(ds[0]);
    }
  }
}
