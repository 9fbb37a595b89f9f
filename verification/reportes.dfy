/**
 * The figures of the reports view (`src/components/Reportes.jsx`), lifted
 * out of the JSX: the KPIs computed from the two flat stores over the
 * concept labels, the per-concept table, the deviation ranking with its
 * "largest deviation" insight, the most expensive concept, and the
 * budget-status classification of the compliance percentage.
 */
module Reportes {
  import opened Amounts
  import opened Conceptos
  import opened Forms

  // ---------------------------------------------------------------- KPIs

  /** `conceptos.map(c => c.nombre)` */
  function Labels(conceptos: seq<Concepto>): (labels: seq<string>)
    ensures |labels| == |conceptos|
    ensures forall i :: 0 <= i < |conceptos| ==> labels[i] == conceptos[i].nombre
  {
    seq(|conceptos|, i requires 0 <= i < |conceptos| => conceptos[i].nombre)
  }

  /** `labels.map(l => Number(store[l]?.monto || 0))` */
  function Data(store: Store, labels: seq<string>): (data: seq<real>)
    ensures |data| == |labels|
  {
    seq(|labels|, i requires 0 <= i < |labels| => StoredValue(store, labels[i]))
  }

  /** Each label adds its stored amount to the total, and a label with no
      stored amount adds nothing. */
  lemma TotalSnoc(store: Store, labels: seq<string>, nombre: string)
    ensures Sum(Data(store, labels + [nombre])) == Sum(Data(store, labels)) + StoredValue(store, nombre)
    ensures nombre !in store ==> Sum(Data(store, labels + [nombre])) == Sum(Data(store, labels))
  {
    var d := Data(store, labels + [nombre]);
    assert d[..|d| - 1] == Data(store, labels);
  }

  /** `total ? Math.round((part / total) * 100) : 0`: the percentage rounded
      to the nearest integer, or zero when the total is zero. */
  function RoundedPercent(part: real, whole: real): (r: int)
    ensures whole == 0.0 ==> r == 0
    ensures whole != 0.0 ==> part / whole * 100.0 - 0.5 < r as real <= part / whole * 100.0 + 0.5
  {
    if whole != 0.0 then Round(part / whole * 100.0) else 0
  }

  /** Spending exactly the estimate is 100%, spending nothing is 0%, and
      anything between stays between. */
  lemma RoundedPercentBounds(part: real, whole: real)
    requires whole > 0.0
    ensures part == whole ==> RoundedPercent(part, whole) == 100
    ensures 0.0 <= part <= whole ==> 0 <= RoundedPercent(part, whole) <= 100
    ensures part >= whole ==> RoundedPercent(part, whole) >= 100
  {
    var x := part / whole * 100.0;
    assert part / whole * whole == part;
    if part == whole {
      assert x == 100.0;
      RoundOfInteger(100);
    }
    if 0.0 <= part <= whole {
      assert 0.0 <= part / whole <= 1.0;
      RoundMonotonic(0.0, x);
      RoundMonotonic(x, 100.0);
      RoundOfInteger(0);
      RoundOfInteger(100);
    }
    if part >= whole {
      assert part / whole >= 1.0;
      RoundMonotonic(100.0, x);
      RoundOfInteger(100);
    }
  }

  datatype Kpis = Kpis(
    totalEst: real, totalReal: real,
    ingresoEst: real, ingresoReal: real,
    inversionEst: real, inversionReal: real, ganadoInversion: real,
    ahorro: real, ahorroReal: real,
    cumplimiento: int, inversionSobreIngreso: int,
    diferencia: real)

  /** The KPI block computed at the top of the component. */
  function ComputeKpis(conceptos: seq<Concepto>, estimados: Store, reales: Store): Kpis
  {
    var labels := Labels(conceptos);
    var totalEst := Sum(Data(estimados, labels));
    var totalReal := Sum(Data(reales, labels));
    var ingresoEst := StoredValue(estimados, "ingreso");
    var ingresoReal := StoredValue(reales, "ingreso");
    var inversionEst := StoredValue(estimados, "inversion");
    var inversionReal := StoredValue(reales, "inversion");
    var ganadoInversion := StoredValue(reales, "ganadoInversion");
    var ahorro := ingresoEst - totalEst - inversionEst;
    var ahorroReal := ingresoReal - totalReal - inversionReal + ganadoInversion;
    Kpis(totalEst, totalReal, ingresoEst, ingresoReal, inversionEst, inversionReal, ganadoInversion,
         ahorro, ahorroReal,
         RoundedPercent(totalReal, totalEst), RoundedPercent(inversionEst, ingresoEst),
         ahorroReal - ahorro)
  }

  /** The savings gap shown under "Ahorro Real" splits into the income,
      expense and investment deviations plus the investment gain; the
      compliance figure is 100 exactly on budget and 0 without an estimate;
      and a missing store entry counts as zero. */
  lemma KpisSpec(conceptos: seq<Concepto>, estimados: Store, reales: Store)
    ensures var k := ComputeKpis(conceptos, estimados, reales);
      && k.diferencia == (k.ingresoReal - k.ingresoEst) - (k.totalReal - k.totalEst)
                         - (k.inversionReal - k.inversionEst) + k.ganadoInversion
      && (k.totalEst == 0.0 ==> k.cumplimiento == 0)
      && (k.totalEst > 0.0 && k.totalReal == k.totalEst ==> k.cumplimiento == 100)
      && (k.totalEst > 0.0 && 0.0 <= k.totalReal <= k.totalEst ==> 0 <= k.cumplimiento <= 100)
      && (k.totalEst > 0.0 && k.totalReal > k.totalEst ==> k.cumplimiento >= 100)
      && (k.ingresoEst == 0.0 ==> k.inversionSobreIngreso == 0)
  {
    var k := ComputeKpis(conceptos, estimados, reales);
    if k.totalEst > 0.0 {
      RoundedPercentBounds(k.totalReal, k.totalEst);
    }
  }

  /** With nothing stored, every KPI is zero. */
  lemma KpisOfEmptyStores(conceptos: seq<Concepto>)
    ensures ComputeKpis(conceptos, map[], map[])
         == Kpis(0.0, 0.0, 0.0, 0.0, 0.0, 0.0, 0.0, 0.0, 0.0, 0, 0, 0.0)
  {
    var labels := Labels(conceptos);
    AllZeroSum(Data(map[], labels));
  }

  lemma {:induction false} AllZeroSum(s: seq<real>)
    requires forall i :: 0 <= i < |s| ==> s[i] == 0.0
    ensures Sum(s) == 0.0
  {
    if s != [] {
      AllZeroSum(s[..|s| - 1]);
    }
  }

  // ------------------------------------------------ per-concept table

  datatype DetailRow = DetailRow(nombre: string, est: real, actual: real, diff: real,
                                 cumple: int, porcentajeTotal: real)

  /** `est > 0 ? Math.round((real / est) * 100) : 0` */
  function Cumple(est: real, actual: real): int
  {
    if est > 0.0 then RoundedPercent(actual, est) else 0
  }

  /** `totalReal > 0 ? (real / totalReal) * 100 : 0` */
  function PorcentajeTotal(actual: real, totalReal: real): real
  {
    if totalReal > 0.0 then actual / totalReal * 100.0 else 0.0
  }

  /** One row of the "Detalles por Concepto" table. */
  function DetailRowOf(nombre: string, est: real, actual: real, totalReal: real): DetailRow
  {
    DetailRow(nombre, est, actual, actual - est, Cumple(est, actual), PorcentajeTotal(actual, totalReal))
  }

  function DetailRows(labels: seq<string>, est: seq<real>, actual: seq<real>, totalReal: real)
    : (rows: seq<DetailRow>)
    requires |est| == |labels| && |actual| == |labels|
    ensures |rows| == |labels|
  {
    seq(|labels|, i requires 0 <= i < |labels| => DetailRowOf(labels[i], est[i], actual[i], totalReal))
  }

  function DiffColumn(rows: seq<DetailRow>): seq<real>
  {
    seq(|rows|, i requires 0 <= i < |rows| => rows[i].diff)
  }

  function ShareColumn(rows: seq<DetailRow>): seq<real>
  {
    seq(|rows|, i requires 0 <= i < |rows| => rows[i].porcentajeTotal)
  }

  lemma {:induction false} DiffSum(est: seq<real>, actual: seq<real>, diffs: seq<real>)
    requires |est| == |actual| == |diffs|
    requires forall i :: 0 <= i < |diffs| ==> diffs[i] == actual[i] - est[i]
    ensures Sum(diffs) == Sum(actual) - Sum(est)
  {
    if diffs != [] {
      var n := |diffs| - 1;
      DiffSum(est[..n], actual[..n], diffs[..n]);
    }
  }

  lemma {:induction false} ShareSum(actual: seq<real>, shares: seq<real>, total: real)
    requires total > 0.0
    requires |shares| == |actual|
    requires forall i :: 0 <= i < |shares| ==> shares[i] == actual[i] / total * 100.0
    ensures Sum(shares) == Sum(actual) / total * 100.0
  {
    if shares != [] {
      var n := |shares| - 1;
      ShareSum(actual[..n], shares[..n], total);
      assert (Sum(actual[..n]) + actual[n]) / total == Sum(actual[..n]) / total + actual[n] / total;
    }
  }

  lemma DetailDiffs(labels: seq<string>, est: seq<real>, actual: seq<real>, total: real)
    requires |est| == |labels| && |actual| == |labels|
    ensures Sum(DiffColumn(DetailRows(labels, est, actual, total))) == Sum(actual) - Sum(est)
  {
    var diffs := DiffColumn(DetailRows(labels, est, actual, total));
    forall i | 0 <= i < |diffs| ensures diffs[i] == actual[i] - est[i] {
      assert diffs[i] == DetailRowOf(labels[i], est[i], actual[i], total).diff;
    }
    DiffSum(est, actual, diffs);
  }

  lemma DetailShares(labels: seq<string>, est: seq<real>, actual: seq<real>, total: real)
    requires |est| == |labels| && |actual| == |labels|
    ensures total > 0.0 ==>
      Sum(ShareColumn(DetailRows(labels, est, actual, total))) == Sum(actual) / total * 100.0
    ensures total <= 0.0 ==>
      forall i :: 0 <= i < |labels| ==> DetailRows(labels, est, actual, total)[i].porcentajeTotal == 0.0
  {
    if total > 0.0 {
      var shares := ShareColumn(DetailRows(labels, est, actual, total));
      forall i | 0 <= i < |shares| ensures shares[i] == actual[i] / total * 100.0 {
        assert shares[i] == DetailRowOf(labels[i], est[i], actual[i], total).porcentajeTotal;
      }
      ShareSum(actual, shares, total);
    }
  }

  lemma WholePercent(total: real)
    requires total > 0.0
    ensures total / total * 100.0 == 100.0
  {
  }

  /** The table's TOTAL row: the differences add up to `totalReal - totalEst`,
      and when anything was spent the "% del Total" column adds up to the
      100% printed there. */
  lemma DetailTotals(conceptos: seq<Concepto>, estimados: Store, reales: Store)
    ensures var labels := Labels(conceptos);
      var est := Data(estimados, labels);
      var actual := Data(reales, labels);
      var rows := DetailRows(labels, est, actual, Sum(actual));
      && Sum(DiffColumn(rows)) == Sum(actual) - Sum(est)
      && (Sum(actual) > 0.0 ==> Sum(ShareColumn(rows)) == 100.0)
      && (Sum(actual) <= 0.0 ==> forall i :: 0 <= i < |rows| ==> rows[i].porcentajeTotal == 0.0)
  {
    var labels := Labels(conceptos);
    var est := Data(estimados, labels);
    var actual := Data(reales, labels);
    var total := Sum(actual);
    DetailDiffs(labels, est, actual, total);
    DetailShares(labels, est, actual, total);
    if total > 0.0 {
      WholePercent(total);
    }
  }

  // ------------------------------------------------ deviation ranking

  datatype Desvio = Desvio(nombre: string, desvio: real, porcentaje: real, realMayorQueEst: bool)

  function Abs(x: real): real
  {
    if x < 0.0 then -x else x
  }

  /** The object built for one label before filtering and sorting. */
  function DesvioOf(nombre: string, est: real, actual: real): Desvio
  {
    Desvio(nombre, Abs(actual - est), if est > 0.0 then (actual - est) / est * 100.0 else 0.0, actual > est)
  }

  function Desvios(labels: seq<string>, est: seq<real>, actual: seq<real>): (ds: seq<Desvio>)
    requires |est| == |labels| && |actual| == |labels|
    ensures |ds| == |labels|
  {
    seq(|labels|, i requires 0 <= i < |labels| => DesvioOf(labels[i], est[i], actual[i]))
  }

  /** `.filter(d => d.desvio > 0)` */
  function NonZero(ds: seq<Desvio>): (r: seq<Desvio>)
    ensures forall d :: d in r <==> d in ds && d.desvio > 0.0
    ensures |r| <= |ds|
  {
    if ds == [] then []
    else (if ds[0].desvio > 0.0 then [ds[0]] else []) + NonZero(ds[1..])
  }

  ghost predicate SortedDesc(ds: seq<Desvio>)
  {
    forall i, j :: 0 <= i < j < |ds| ==> ds[i].desvio >= ds[j].desvio
  }

  /** Puts `d` after every element whose deviation is at least its own. */
  function Insert(sorted: seq<Desvio>, d: Desvio): seq<Desvio>
  {
    if sorted == [] then [d]
    else if sorted[0].desvio >= d.desvio then [sorted[0]] + Insert(sorted[1..], d)
    else [d] + sorted
  }

  /** `.sort((a, b) => b.desvio - a.desvio)`, a stable sort by descending
      deviation, written as insertion sort. */
  function SortDesc(ds: seq<Desvio>): seq<Desvio>
  {
    if ds == [] then [] else Insert(SortDesc(ds[..|ds| - 1]), ds[|ds| - 1])
  }

  /** The elements with deviation `k`, in order. */
  function WithDesvio(ds: seq<Desvio>, k: real): seq<Desvio>
  {
    if ds == [] then []
    else (if ds[0].desvio == k then [ds[0]] else []) + WithDesvio(ds[1..], k)
  }

  lemma {:induction false} InsertPerm(sorted: seq<Desvio>, d: Desvio)
    ensures multiset(Insert(sorted, d)) == multiset(sorted) + multiset{d}
  {
    if sorted != [] && sorted[0].desvio >= d.desvio {
      InsertPerm(sorted[1..], d);
      assert sorted == [sorted[0]] + sorted[1..];
    }
  }

  /** A deviation at least as large as every element can go in front. */
  lemma SortedCons(x: Desvio, ds: seq<Desvio>)
    requires SortedDesc(ds)
    requires forall i :: 0 <= i < |ds| ==> ds[i].desvio <= x.desvio
    ensures SortedDesc([x] + ds)
  {
    var r := [x] + ds;
    forall i, j | 0 <= i < j < |r| ensures r[i].desvio >= r[j].desvio {
      assert r[j] == ds[j - 1];
      if i > 0 {
        assert r[i] == ds[i - 1];
      }
    }
  }

  /** Inserting keeps every deviation under a common bound. */
  lemma {:induction false} InsertAtMost(sorted: seq<Desvio>, d: Desvio, bound: real)
    requires forall i :: 0 <= i < |sorted| ==> sorted[i].desvio <= bound
    requires d.desvio <= bound
    ensures forall i :: 0 <= i < |Insert(sorted, d)| ==> Insert(sorted, d)[i].desvio <= bound
  {
    if sorted != [] && sorted[0].desvio >= d.desvio {
      var rest := Insert(sorted[1..], d);
      InsertAtMost(sorted[1..], d, bound);
      forall i | 0 <= i < |[sorted[0]] + rest| ensures ([sorted[0]] + rest)[i].desvio <= bound {
        if i > 0 {
          assert ([sorted[0]] + rest)[i] == rest[i - 1];
        }
      }
    } else if sorted != [] {
      forall i | 0 <= i < |[d] + sorted| ensures ([d] + sorted)[i].desvio <= bound {
        if i > 0 {
          assert ([d] + sorted)[i] == sorted[i - 1];
        }
      }
    }
  }

  lemma {:induction false} InsertSorted(sorted: seq<Desvio>, d: Desvio)
    requires SortedDesc(sorted)
    ensures SortedDesc(Insert(sorted, d))
  {
    if sorted == [] {
    } else if sorted[0].desvio >= d.desvio {
      var rest := sorted[1..];
      assert SortedDesc(rest) by {
        forall i, j | 0 <= i < j < |rest| ensures rest[i].desvio >= rest[j].desvio {
          assert rest[i] == sorted[i + 1] && rest[j] == sorted[j + 1];
        }
      }
      InsertSorted(rest, d);
      forall i | 0 <= i < |rest| ensures rest[i].desvio <= sorted[0].desvio {
        assert rest[i] == sorted[i + 1];
      }
      InsertAtMost(rest, d, sorted[0].desvio);
      SortedCons(sorted[0], Insert(rest, d));
    } else {
      forall i | 0 <= i < |sorted| ensures sorted[i].desvio <= d.desvio {
        assert i == 0 || sorted[0].desvio >= sorted[i].desvio;
      }
      SortedCons(d, sorted);
    }
  }

  lemma {:induction false} SortDescSpec(ds: seq<Desvio>)
    ensures SortedDesc(SortDesc(ds))
    ensures multiset(SortDesc(ds)) == multiset(ds)
    ensures |SortDesc(ds)| == |ds|
  {
    if ds != [] {
      var n := |ds| - 1;
      var init, last := ds[..n], ds[n];
      assert ds == init + [last];
      var s := SortDesc(init);
      assert SortDesc(ds) == Insert(s, last);
      SortDescSpec(init);
      InsertPerm(s, last);
      InsertSorted(s, last);
      assert multiset(ds) == multiset(init) + multiset{last};
      assert |SortDesc(ds)| == |multiset(SortDesc(ds))| == |multiset(ds)| == |ds|;
    }
  }

  lemma {:induction false} WithDesvioNone(ds: seq<Desvio>, k: real)
    requires forall i :: 0 <= i < |ds| ==> ds[i].desvio < k
    ensures WithDesvio(ds, k) == []
  {
    if ds != [] {
      WithDesvioNone(ds[1..], k);
    }
  }

  lemma {:induction false} WithDesvioSnoc(ds: seq<Desvio>, d: Desvio, k: real)
    ensures WithDesvio(ds + [d], k) == WithDesvio(ds, k) + (if d.desvio == k then [d] else [])
  {
    if ds == [] {
      assert ds + [d] == [d];
      assert [d][1..] == [];
    } else {
      var t := ds + [d];
      assert t[0] == ds[0];
      assert t[1..] == ds[1..] + [d];
      WithDesvioSnoc(ds[1..], d, k);
      var head := if ds[0].desvio == k then [ds[0]] else [];
      var tail := if d.desvio == k then [d] else [];
      assert WithDesvio(t, k) == head + (WithDesvio(ds[1..], k) + tail);
      assert WithDesvio(ds, k) == head + WithDesvio(ds[1..], k);
    }
  }

  lemma {:induction false} InsertStable(sorted: seq<Desvio>, d: Desvio, k: real)
    requires SortedDesc(sorted)
    ensures WithDesvio(Insert(sorted, d), k) == WithDesvio(sorted, k) + (if d.desvio == k then [d] else [])
  {
    if sorted == [] {
    } else if sorted[0].desvio >= d.desvio {
      InsertStable(sorted[1..], d, k);
      assert ([sorted[0]] + Insert(sorted[1..], d))[1..] == Insert(sorted[1..], d);
    } else {
      assert ([d] + sorted)[1..] == sorted;
      if d.desvio == k {
        WithDesvioNone(sorted, k);
      }
    }
  }

  /** Stability: the elements sharing any one deviation value come out in
      the order they went in. */
  lemma {:induction false} SortDescStable(ds: seq<Desvio>, k: real)
    ensures WithDesvio(SortDesc(ds), k) == WithDesvio(ds, k)
  {
    if ds != [] {
      var n := |ds| - 1;
      var init, last := ds[..n], ds[n];
      assert ds == init + [last];
      assert SortDesc(ds) == Insert(SortDesc(init), last);
      SortDescStable(init, k);
      SortDescSpec(init);
      InsertStable(SortDesc(init), last, k);
      WithDesvioSnoc(init, last, k);
    }
  }

  /** The deviation list shown under "Insights". */
  function Ranking(labels: seq<string>, est: seq<real>, actual: seq<real>): seq<Desvio>
    requires |est| == |labels| && |actual| == |labels|
  {
    SortDesc(NonZero(Desvios(labels, est, actual)))
  }

  /** The list is sorted and holds exactly the non-zero deviations. */
  lemma RankingMembers(labels: seq<string>, est: seq<real>, actual: seq<real>)
    requires |est| == |labels| && |actual| == |labels|
    ensures var r := Ranking(labels, est, actual);
      && SortedDesc(r)
      && (forall d :: d in r <==> d in Desvios(labels, est, actual) && d.desvio > 0.0)
  {
    var nz := NonZero(Desvios(labels, est, actual));
    SortDescSpec(nz);
    var r := Ranking(labels, est, actual);
    forall d ensures d in r <==> d in nz {
      assert d in r <==> d in multiset(r);
      assert d in nz <==> d in multiset(nz);
    }
  }

  /** The list holds exactly the concepts whose actual amount differs from
      the estimate, each once per label, sorted by descending deviation, and
      ties keep label order. */
  lemma RankingSpec(labels: seq<string>, est: seq<real>, actual: seq<real>)
    requires |est| == |labels| && |actual| == |labels|
    ensures var r := Ranking(labels, est, actual);
      && SortedDesc(r)
      && multiset(r) == multiset(NonZero(Desvios(labels, est, actual)))
      && (forall d :: d in r <==> d in Desvios(labels, est, actual) && d.desvio > 0.0)
      && (forall k :: WithDesvio(r, k) == WithDesvio(NonZero(Desvios(labels, est, actual)), k))
  {
    var nz := NonZero(Desvios(labels, est, actual));
    SortDescSpec(nz);
    RankingMembers(labels, est, actual);
    forall k ensures WithDesvio(Ranking(labels, est, actual), k) == WithDesvio(nz, k) {
      SortDescStable(nz, k);
    }
  }

  /** `desvios[0]`, or nothing when the list is empty. */
  function MayorDesvio(labels: seq<string>, est: seq<real>, actual: seq<real>): Option<Desvio>
    requires |est| == |labels| && |actual| == |labels|
  {
    var r := Ranking(labels, est, actual);
    if r == [] then None else Some(r[0])
  }

  lemma {:induction false} WithDesvioFirst(ds: seq<Desvio>, k: real)
    requires WithDesvio(ds, k) != []
    ensures exists i :: 0 <= i < |ds| && ds[i] == WithDesvio(ds, k)[0] && ds[i].desvio == k
                        && forall j :: 0 <= j < i ==> ds[j].desvio != k
  {
    if ds[0].desvio != k {
      WithDesvioFirst(ds[1..], k);
      var i :| 0 <= i < |ds[1..]| && ds[1..][i] == WithDesvio(ds[1..], k)[0] && ds[1..][i].desvio == k
               && forall j :: 0 <= j < i ==> ds[1..][j].desvio != k;
      assert ds[i + 1] == ds[1..][i];
      forall j | 0 <= j < i + 1 ensures ds[j].desvio != k {
        if j > 0 { assert ds[j] == ds[1..][j - 1]; }
      }
    }
  }

  lemma {:induction false} WithDesvioNonZero(ds: seq<Desvio>, k: real)
    requires k > 0.0
    ensures WithDesvio(NonZero(ds), k) == WithDesvio(ds, k)
  {
    if ds != [] {
      WithDesvioNonZero(ds[1..], k);
      var head := if ds[0].desvio > 0.0 then [ds[0]] else [];
      WithDesvioConcat(head, NonZero(ds[1..]), k);
    }
  }

  lemma {:induction false} WithDesvioConcat(a: seq<Desvio>, b: seq<Desvio>, k: real)
    ensures WithDesvio(a + b, k) == WithDesvio(a, k) + WithDesvio(b, k)
  {
    if a == [] {
      assert a + b == b;
    } else {
      var ab := a + b;
      assert ab[0] == a[0];
      assert ab[1..] == a[1..] + b;
      WithDesvioConcat(a[1..], b, k);
      var head := if a[0].desvio == k then [a[0]] else [];
      assert WithDesvio(ab, k) == head + (WithDesvio(a[1..], k) + WithDesvio(b, k));
      assert WithDesvio(a, k) == head + WithDesvio(a[1..], k);
    }
  }

  /** The ranking is empty exactly when every actual amount equals its
      estimate. */
  lemma RankingEmpty(labels: seq<string>, est: seq<real>, actual: seq<real>)
    requires |est| == |labels| && |actual| == |labels|
    ensures Ranking(labels, est, actual) == [] <==> forall i :: 0 <= i < |labels| ==> est[i] == actual[i]
  {
    var ds := Desvios(labels, est, actual);
    var r := Ranking(labels, est, actual);
    RankingMembers(labels, est, actual);
    if r == [] {
      forall i | 0 <= i < |labels| ensures est[i] == actual[i] {
        assert ds[i] in ds;
        assert ds[i] !in r;
      }
    } else {
      assert r[0] in r;
      var i :| 0 <= i < |ds| && ds[i] == r[0];
      assert est[i] != actual[i];
    }
  }

  /** The head of the ranking has the largest deviation. */
  lemma RankingHeadMax(labels: seq<string>, est: seq<real>, actual: seq<real>)
    requires |est| == |labels| && |actual| == |labels|
    requires Ranking(labels, est, actual) != []
    ensures var d := Ranking(labels, est, actual)[0];
      d.desvio > 0.0 && forall i :: 0 <= i < |labels| ==> Abs(actual[i] - est[i]) <= d.desvio
  {
    var ds := Desvios(labels, est, actual);
    var r := Ranking(labels, est, actual);
    RankingMembers(labels, est, actual);
    var d := r[0];
    assert d in r;
    forall i | 0 <= i < |labels| ensures Abs(actual[i] - est[i]) <= d.desvio {
      assert ds[i].desvio == Abs(actual[i] - est[i]);
      if ds[i].desvio > 0.0 {
        assert ds[i] in r by { assert ds[i] in ds; }
        var m :| 0 <= m < |r| && r[m] == ds[i];
        assert m == 0 || r[0].desvio >= r[m].desvio;
      }
    }
  }

  /** The head of the ranking is the first concept, in label order, that
      reaches its deviation. */
  lemma RankingHeadFirst(labels: seq<string>, est: seq<real>, actual: seq<real>)
    requires |est| == |labels| && |actual| == |labels|
    requires Ranking(labels, est, actual) != []
    ensures var d := Ranking(labels, est, actual)[0];
      exists i :: 0 <= i < |labels| && d == DesvioOf(labels[i], est[i], actual[i])
                  && forall j :: 0 <= j < i ==> Abs(actual[j] - est[j]) < d.desvio
  {
    var ds := Desvios(labels, est, actual);
    var r := Ranking(labels, est, actual);
    RankingHeadMax(labels, est, actual);
    RankingMembers(labels, est, actual);
    var d := r[0];
    var k := d.desvio;
    assert WithDesvio(r, k) != [] && WithDesvio(r, k)[0] == d;
    SortDescStable(NonZero(ds), k);
    WithDesvioNonZero(ds, k);
    WithDesvioFirst(ds, k);
    var i :| 0 <= i < |ds| && ds[i] == WithDesvio(ds, k)[0] && ds[i].desvio == k
             && forall j :: 0 <= j < i ==> ds[j].desvio != k;
    forall j | 0 <= j < i ensures Abs(actual[j] - est[j]) < d.desvio {
      assert ds[j].desvio <= k;
    }
    assert d == DesvioOf(labels[i], est[i], actual[i]);
  }

  /** `mayorDesvio` is absent exactly when every concept matches its
      estimate; otherwise it is the first concept, in label order, whose
      deviation is the largest. */
  lemma MayorDesvioSpec(labels: seq<string>, est: seq<real>, actual: seq<real>)
    requires |est| == |labels| && |actual| == |labels|
    ensures MayorDesvio(labels, est, actual).None? <==> forall i :: 0 <= i < |labels| ==> est[i] == actual[i]
    ensures MayorDesvio(labels, est, actual).Some? ==>
      var d := MayorDesvio(labels, est, actual).value;
      && (forall i :: 0 <= i < |labels| ==> Abs(actual[i] - est[i]) <= d.desvio)
      && exists i :: 0 <= i < |labels| && d == DesvioOf(labels[i], est[i], actual[i])
                     && forall j :: 0 <= j < i ==> Abs(actual[j] - est[j]) < d.desvio
  {
    RankingEmpty(labels, est, actual);
    if Ranking(labels, est, actual) != [] {
      RankingHeadMax(labels, est, actual);
      RankingHeadFirst(labels, est, actual);
    }
  }

  // ------------------------------------------- most expensive concept

  /** `labels.reduce((max, nombre, idx) => data[idx] > data[max] ? idx : max, 0)`
      over the first `n` labels. */
  function MasCaroUpTo(data: seq<real>, n: nat): (r: nat)
    requires n <= |data|
    ensures n == 0 ==> r == 0
    ensures n > 0 ==> r < n
    ensures n > 0 ==> forall j :: 0 <= j < n ==> data[j] <= data[r]
    ensures n > 0 ==> forall j :: 0 <= j < r ==> data[j] < data[r]
  {
    if n == 0 then 0
    else
      var m := MasCaroUpTo(data, n - 1);
      if data[n - 1] > data[m] then n - 1 else m
  }

  /** `conceptoMasCaro`: the index of the first largest actual amount, and
      0 for an empty list. */
  function ConceptoMasCaro(data: seq<real>): (r: nat)
    ensures |data| == 0 ==> r == 0
    ensures |data| > 0 ==> r < |data| && (forall j :: 0 <= j < |data| ==> data[j] <= data[r])
                           && (forall j :: 0 <= j < r ==> data[j] < data[r])
  {
    MasCaroUpTo(data, |data|)
  }

  // ------------------------------------------------ budget status

  datatype Status = Danger | Warning | Success

  /** The progress bar's (and each badge's) colour:
      `c > 100 ? 'bg-danger' : c > 80 ? 'bg-warning' : 'bg-success'`. */
  function StatusOf(cumplimiento: int): Status
  {
    if cumplimiento > 100 then Danger else if cumplimiento > 80 then Warning else Success
  }

  /** The progress bar's width, `Math.min(cumplimiento, 100)`. */
  function ProgressWidth(cumplimiento: int): (w: int)
    ensures w <= 100
    ensures w == cumplimiento || (cumplimiento > 100 && w == 100)
  {
    if cumplimiento < 100 then cumplimiento else 100
  }

  datatype Message = OverBudget | NearLimit | WithinBudget

  /** The messages under the bar whose guards hold. */
  function Messages(cumplimiento: int): set<Message>
  {
    (if cumplimiento > 100 then {OverBudget} else {})
    + (if cumplimiento <= 100 && cumplimiento > 80 then {NearLimit} else {})
    + (if cumplimiento <= 80 then {WithinBudget} else {})
  }

  function MessageFor(s: Status): Message
  {
    match s
    case Danger => OverBudget
    case Warning => NearLimit
    case Success => WithinBudget
  }

  /** Exactly one message is shown, and it is the one matching the bar's
      colour; the bar is full exactly when the budget is reached or passed. */
  lemma BudgetStatusSpec(cumplimiento: int)
    ensures Messages(cumplimiento) == {MessageFor(StatusOf(cumplimiento))}
    ensures StatusOf(cumplimiento) == Danger <==> cumplimiento > 100
    ensures StatusOf(cumplimiento) == Success <==> cumplimiento <= 80
    ensures ProgressWidth(cumplimiento) == 100 <==> cumplimiento >= 100
  {
  }
}
