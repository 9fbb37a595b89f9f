/**
 * The spreadsheet export (`src/utils/exportarExcel.js`): three sheets built
 * from the month-keyed estimate and actual records for a caller-chosen list
 * of months. The Estimados and Reales sheets are built by pushing rows in
 * nested loops; the Resumen Mensual sheet maps each month to a row and
 * pushes a TOTALES row of column sums.
 */
module ExportExcel {
  import opened Amounts

  /** A `YYYY-MM` month key, kept opaque. */
  type Month = string

  datatype EstimateConcept = EstimateConcept(nombre: string, monto: Amount)
  datatype EstimateRecord = EstimateRecord(ingreso: Amount, inversion: Amount,
                                           conceptos: seq<EstimateConcept>)

  datatype Gasto = Gasto(detalle: string, monto: Amount)
  datatype ActualConcept = ActualConcept(nombre: string, gastos: seq<Gasto>)
  datatype ActualRecord = ActualRecord(ingreso: Amount, inversion: Amount, ganadoInversion: Amount,
                                       conceptos: seq<ActualConcept>)

  /** `estimados[mes] || {}` */
  function EstimateFor(estimados: map<Month, EstimateRecord>, mes: Month): EstimateRecord
  {
    if mes in estimados then estimados[mes] else EstimateRecord(Blank, Blank, [])
  }

  /** `reales[mes] || {}` */
  function ActualFor(reales: map<Month, ActualRecord>, mes: Month): ActualRecord
  {
    if mes in reales then reales[mes] else ActualRecord(Blank, Blank, Blank, [])
  }

  /** A cell of a sheet: the empty string, a text, a number, or the month's
      localized "month year" title. */
  datatype Cell = Empty | Text(s: string) | Number(v: real) | MonthTitle(mes: Month)

  /** The numeric content of a cell, zero for anything else. */
  function CellValue(c: Cell): real
  {
    if c.Number? then c.v else 0.0
  }

  /** The rows of consecutive blocks, one block after another. */
  function Flatten<T>(blocks: seq<seq<T>>): seq<T>
  {
    if blocks == [] then [] else Flatten(blocks[..|blocks| - 1]) + blocks[|blocks| - 1]
  }

  lemma {:induction false} FlattenConcat<T>(a: seq<seq<T>>, b: seq<seq<T>>)
    ensures Flatten(a + b) == Flatten(a) + Flatten(b)
  {
    if b == [] {
      assert a + b == a;
    } else {
      var n := |b| - 1;
      var ab := a + b;
      assert ab[..|ab| - 1] == a + b[..n];
      assert ab[|ab| - 1] == b[n];
      FlattenConcat(a, b[..n]);
    }
  }

  // ----------------------------------------------------- Estimados sheet

  datatype EstRow = EstRow(mes: Cell, tipo: Cell, concepto: Cell, monto: Cell,
                           ingreso: Cell, totalGastos: Cell, inversion: Cell, ahorro: Cell)

  const EstBlankRow := EstRow(Empty, Empty, Empty, Empty, Empty, Empty, Empty, Empty)

  function EstMontos(cs: seq<EstimateConcept>): (s: seq<real>)
    ensures |s| == |cs|
  {
    if cs == [] then [] else EstMontos(cs[..|cs| - 1]) + [Value(cs[|cs| - 1].monto)]
  }

  /** `conceptos.reduce((sum, c) => sum + Number(c.monto || 0), 0)` */
  function EstTotalGastos(cs: seq<EstimateConcept>): real
  {
    Sum(EstMontos(cs))
  }

  function EstSummaryRow(mes: Month, rec: EstimateRecord): EstRow
  {
    var ingreso := Value(rec.ingreso);
    var inversion := Value(rec.inversion);
    var total := EstTotalGastos(rec.conceptos);
    EstRow(MonthTitle(mes), Text("RESUMEN"), Empty, Empty,
           Number(ingreso), Number(total), Number(inversion), Number(ingreso - total - inversion))
  }

  function EstConceptRow(c: EstimateConcept): EstRow
  {
    EstRow(Empty, Text("Gasto"), Text(c.nombre), Number(Value(c.monto)), Empty, Empty, Empty, Empty)
  }

  function EstConceptRows(cs: seq<EstimateConcept>): (rows: seq<EstRow>)
    ensures |rows| == |cs|
  {
    if cs == [] then [] else EstConceptRows(cs[..|cs| - 1]) + [EstConceptRow(cs[|cs| - 1])]
  }

  /** One month: its summary row, a row per concept, a blank separator. */
  function EstBlock(mes: Month, rec: EstimateRecord): seq<EstRow>
  {
    [EstSummaryRow(mes, rec)] + EstConceptRows(rec.conceptos) + [EstBlankRow]
  }

  /** Each month's block of the Estimados sheet. */
  function EstBlocks(estimados: map<Month, EstimateRecord>, meses: seq<Month>): (bs: seq<seq<EstRow>>)
    ensures |bs| == |meses|
  {
    seq(|meses|, i requires 0 <= i < |meses| => EstBlock(meses[i], EstimateFor(estimados, meses[i])))
  }

  /** The rows of the Estimados sheet for the given months, in order. */
  function EstimadosSheet(estimados: map<Month, EstimateRecord>, meses: seq<Month>): seq<EstRow>
  {
    Flatten(EstBlocks(estimados, meses))
  }

  /** One more month adds its block at the end. */
  lemma EstimadosSheetSnoc(estimados: map<Month, EstimateRecord>, meses: seq<Month>)
    requires meses != []
    ensures EstimadosSheet(estimados, meses)
         == EstimadosSheet(estimados, meses[..|meses| - 1])
            + EstBlock(meses[|meses| - 1], EstimateFor(estimados, meses[|meses| - 1]))
  {
    var bs := EstBlocks(estimados, meses);
    assert bs[..|bs| - 1] == EstBlocks(estimados, meses[..|meses| - 1]);
  }

  /** The inner loop of the Estimados sheet: one 'Gasto' row per concept. */
  method PushEstConceptos(rows: seq<EstRow>, conceptos: seq<EstimateConcept>) returns (out: seq<EstRow>)
    ensures out == rows + EstConceptRows(conceptos)
  {
    out := rows;
    var j := 0;
    while j < |conceptos|
      invariant 0 <= j <= |conceptos|
      invariant out == rows + EstConceptRows(conceptos[..j])
    {
      var concepto := conceptos[j];
      out := out + [EstRow(Empty, Text("Gasto"), Text(concepto.nombre), Number(Value(concepto.monto)),
                           Empty, Empty, Empty, Empty)];
      assert conceptos[..j + 1][..j] == conceptos[..j];
      j := j + 1;
    }
    assert conceptos[..j] == conceptos;
  }

  /** One iteration of the first loop of `exportarExcel`: a month's summary
      row, its concepts' rows, the separator. */
  method PushEstMonth(rows: seq<EstRow>, mes: Month, rec: EstimateRecord) returns (out: seq<EstRow>)
    ensures out == rows + EstBlock(mes, rec)
  {
    var ingreso := Value(rec.ingreso);
    var inversion := Value(rec.inversion);
    var totalGastos := Sum(EstMontos(rec.conceptos));
    out := rows + [EstRow(MonthTitle(mes), Text("RESUMEN"), Empty, Empty, Number(ingreso),
                          Number(totalGastos), Number(inversion),
                          Number(ingreso - totalGastos - inversion))];
    out := PushEstConceptos(out, rec.conceptos);
    out := out + [EstRow(Empty, Empty, Empty, Empty, Empty, Empty, Empty, Empty)];
  }

  /** The first loop of `exportarExcel`, pushing into `datosEstimados`. */
  method BuildEstimados(estimados: map<Month, EstimateRecord>, meses: seq<Month>)
    returns (rows: seq<EstRow>)
    ensures rows == EstimadosSheet(estimados, meses)
  {
    rows := [];
    var i := 0;
    while i < |meses|
      invariant 0 <= i <= |meses|
      invariant rows == EstimadosSheet(estimados, meses[..i])
    {
      rows := PushEstMonth(rows, meses[i], EstimateFor(estimados, meses[i]));
      assert meses[..i + 1][..i] == meses[..i];
      EstimadosSheetSnoc(estimados, meses[..i + 1]);
      i := i + 1;
    }
    assert meses[..i] == meses;
  }

  /** The number of rows the months take: one row per
      concept plus its summary and separator rows. */
  function EstRowCount(estimados: map<Month, EstimateRecord>, meses: seq<Month>): nat
  {
    if meses == [] then 0
    else EstRowCount(estimados, meses[..|meses| - 1])
         + |EstimateFor(estimados, meses[|meses| - 1]).conceptos| + 2
  }

  lemma EstimadosSheetConcat(estimados: map<Month, EstimateRecord>, a: seq<Month>, b: seq<Month>)
    ensures EstimadosSheet(estimados, a + b) == EstimadosSheet(estimados, a) + EstimadosSheet(estimados, b)
  {
    assert EstBlocks(estimados, a + b) == EstBlocks(estimados, a) + EstBlocks(estimados, b);
    FlattenConcat(EstBlocks(estimados, a), EstBlocks(estimados, b));
  }

  lemma {:induction false} EstimadosSheetLength(estimados: map<Month, EstimateRecord>, meses: seq<Month>)
    ensures |EstimadosSheet(estimados, meses)| == EstRowCount(estimados, meses)
  {
    if meses != [] {
      EstimadosSheetLength(estimados, meses[..|meses| - 1]);
      EstimadosSheetSnoc(estimados, meses);
    }
  }

  /** The sheet is the months' blocks one after another: month `i`'s block
      starts right after the rows of the months before it, and its first
      row is that month's summary. */
  lemma EstimadosSheetLayout(estimados: map<Month, EstimateRecord>, meses: seq<Month>, i: nat)
    requires i < |meses|
    ensures EstimadosSheet(estimados, meses)
         == EstimadosSheet(estimados, meses[..i]) + EstBlock(meses[i], EstimateFor(estimados, meses[i]))
            + EstimadosSheet(estimados, meses[i + 1..])
    ensures |EstimadosSheet(estimados, meses)| == EstRowCount(estimados, meses)
    ensures EstRowCount(estimados, meses[..i]) == |EstimadosSheet(estimados, meses[..i])|
    ensures EstimadosSheet(estimados, meses)[EstRowCount(estimados, meses[..i])]
         == EstSummaryRow(meses[i], EstimateFor(estimados, meses[i]))
  {
    assert meses == meses[..i + 1] + meses[i + 1..];
    EstimadosSheetConcat(estimados, meses[..i + 1], meses[i + 1..]);
    assert meses[..i + 1][..i] == meses[..i];
    EstimadosSheetSnoc(estimados, meses[..i + 1]);
    EstimadosSheetLength(estimados, meses);
    EstimadosSheetLength(estimados, meses[..i]);
  }

  /** A month with no estimate record takes two rows, a summary of zeros and
      the separator. */
  lemma EstBlockOfMissingMonth(estimados: map<Month, EstimateRecord>, mes: Month)
    requires mes !in estimados
    ensures EstBlock(mes, EstimateFor(estimados, mes))
         == [EstRow(MonthTitle(mes), Text("RESUMEN"), Empty, Empty,
                    Number(0.0), Number(0.0), Number(0.0), Number(0.0)), EstBlankRow]
  {
  }

  function EstMontoColumn(rows: seq<EstRow>): (s: seq<real>)
    ensures |s| == |rows|
  {
    if rows == [] then [] else EstMontoColumn(rows[..|rows| - 1]) + [CellValue(rows[|rows| - 1].monto)]
  }

  /** The summary row's Total Gastos is the sum of the Monto cells of the
      concept rows below it, and its Ahorro Estimado is income minus that
      total minus investment. */
  lemma {:induction false} EstSummaryMatchesConcepts(mes: Month, rec: EstimateRecord)
    ensures EstSummaryRow(mes, rec).totalGastos == Number(Sum(EstMontoColumn(EstConceptRows(rec.conceptos))))
    ensures EstSummaryRow(mes, rec).ahorro
         == Number(CellValue(EstSummaryRow(mes, rec).ingreso) - CellValue(EstSummaryRow(mes, rec).totalGastos)
                   - CellValue(EstSummaryRow(mes, rec).inversion))
  {
    EstMontoColumnOfConcepts(rec.conceptos);
  }

  lemma {:induction false} EstMontoColumnOfConcepts(cs: seq<EstimateConcept>)
    ensures EstMontoColumn(EstConceptRows(cs)) == EstMontos(cs)
  {
    if cs != [] {
      var rows := EstConceptRows(cs);
      EstMontoColumnOfConcepts(cs[..|cs| - 1]);
      assert rows[..|rows| - 1] == EstConceptRows(cs[..|cs| - 1]);
    }
  }

  // -------------------------------------------------------- Reales sheet

  datatype RealRow = RealRow(mes: Cell, tipo: Cell, concepto: Cell, detalle: Cell, monto: Cell,
                             ingreso: Cell, totalGastos: Cell, inversion: Cell, ganancia: Cell, ahorro: Cell)

  const RealBlankRow := RealRow(Empty, Empty, Empty, Empty, Empty, Empty, Empty, Empty, Empty, Empty)

  function GastoMontos(gs: seq<Gasto>): (s: seq<real>)
    ensures |s| == |gs|
  {
    if gs == [] then [] else GastoMontos(gs[..|gs| - 1]) + [Value(gs[|gs| - 1].monto)]
  }

  /** `(c.gastos || []).reduce((s, g) => s + Number(g.monto || 0), 0)` */
  function ConceptTotal(c: ActualConcept): real
  {
    Sum(GastoMontos(c.gastos))
  }

  function ConceptTotals(cs: seq<ActualConcept>): (s: seq<real>)
    ensures |s| == |cs|
  {
    if cs == [] then [] else ConceptTotals(cs[..|cs| - 1]) + [ConceptTotal(cs[|cs| - 1])]
  }

  /** The month's actual expenses, summed concept by concept. */
  function RealTotalGastos(cs: seq<ActualConcept>): real
  {
    Sum(ConceptTotals(cs))
  }

  function RealSummaryRow(mes: Month, rec: ActualRecord): RealRow
  {
    var ingreso := Value(rec.ingreso);
    var inversion := Value(rec.inversion);
    var total := RealTotalGastos(rec.conceptos);
    RealRow(MonthTitle(mes), Text("RESUMEN"), Empty, Empty, Empty,
            Number(ingreso), Number(total), Number(inversion), Number(Value(rec.ganadoInversion)),
            Number(ingreso - total - inversion))
  }

  function GastoRow(g: Gasto): RealRow
  {
    RealRow(Empty, Empty, Empty, Text("  • " + g.detalle), Number(Value(g.monto)),
            Empty, Empty, Empty, Empty, Empty)
  }

  function GastoRows(gs: seq<Gasto>): (rows: seq<RealRow>)
    ensures |rows| == |gs|
  {
    if gs == [] then [] else GastoRows(gs[..|gs| - 1]) + [GastoRow(gs[|gs| - 1])]
  }

  /** A concept without expenses is one row with an empty Monto; otherwise a
      'Total:' row followed by one row per expense. */
  function RealConceptRows(c: ActualConcept): seq<RealRow>
  {
    if c.gastos == [] then
      [RealRow(Empty, Text("Gasto"), Text(c.nombre), Empty, Empty, Empty, Empty, Empty, Empty, Empty)]
    else
      [RealRow(Empty, Text("Gasto"), Text(c.nombre), Text("Total:"), Number(ConceptTotal(c)),
               Empty, Empty, Empty, Empty, Empty)]
      + GastoRows(c.gastos)
  }

  /** The rows of a month's concepts, one concept after another. */
  function RealConceptsRows(cs: seq<ActualConcept>): seq<RealRow>
  {
    Flatten(seq(|cs|, i requires 0 <= i < |cs| => RealConceptRows(cs[i])))
  }

  function RealBlock(mes: Month, rec: ActualRecord): seq<RealRow>
  {
    [RealSummaryRow(mes, rec)] + RealConceptsRows(rec.conceptos) + [RealBlankRow]
  }

  function RealMonthRows(reales: map<Month, ActualRecord>, mes: Month): seq<RealRow>
  {
    RealBlock(mes, ActualFor(reales, mes))
  }

  /** Each month's block of the Reales sheet. */
  function RealBlocks(reales: map<Month, ActualRecord>, meses: seq<Month>): (bs: seq<seq<RealRow>>)
    ensures |bs| == |meses|
  {
    seq(|meses|, i requires 0 <= i < |meses| => RealMonthRows(reales, meses[i]))
  }

  /** The rows of the Reales sheet for the given months, in order. */
  function RealesSheet(reales: map<Month, ActualRecord>, meses: seq<Month>): seq<RealRow>
  {
    Flatten(RealBlocks(reales, meses))
  }

  /** One more month adds its block at the end. */
  lemma RealesSheetSnoc(reales: map<Month, ActualRecord>, meses: seq<Month>)
    requires meses != []
    ensures RealesSheet(reales, meses)
         == RealesSheet(reales, meses[..|meses| - 1]) + RealMonthRows(reales, meses[|meses| - 1])
  {
    var bs := RealBlocks(reales, meses);
    assert bs[..|bs| - 1] == RealBlocks(reales, meses[..|meses| - 1]);
  }

  /** The rows one concept contributes, pushed as the inner loops do. */
  method PushConcepto(rows: seq<RealRow>, concepto: ActualConcept) returns (out: seq<RealRow>)
    ensures out == rows + RealConceptRows(concepto)
  {
    var gastosConcepto := concepto.gastos;
    if |gastosConcepto| == 0 {
      out := rows + [RealRow(Empty, Text("Gasto"), Text(concepto.nombre), Empty, Empty,
                             Empty, Empty, Empty, Empty, Empty)];
      return;
    }
    var totalConcepto := Sum(GastoMontos(gastosConcepto));
    out := rows + [RealRow(Empty, Text("Gasto"), Text(concepto.nombre), Text("Total:"), Number(totalConcepto),
                           Empty, Empty, Empty, Empty, Empty)];
    var k := 0;
    while k < |gastosConcepto|
      invariant 0 <= k <= |gastosConcepto|
      invariant out == rows + [RealConceptRows(concepto)[0]] + GastoRows(gastosConcepto[..k])
    {
      var gasto := gastosConcepto[k];
      out := out + [RealRow(Empty, Empty, Empty, Text("  • " + gasto.detalle), Number(Value(gasto.monto)),
                            Empty, Empty, Empty, Empty, Empty)];
      assert gastosConcepto[..k + 1][..k] == gastosConcepto[..k];
      k := k + 1;
    }
    assert gastosConcepto[..k] == gastosConcepto;
  }

  lemma RealConceptsRowsSnoc(cs: seq<ActualConcept>, j: nat)
    requires j < |cs|
    ensures RealConceptsRows(cs[..j + 1]) == RealConceptsRows(cs[..j]) + RealConceptRows(cs[j])
  {
    var bs := seq(j + 1, i requires 0 <= i < j + 1 => RealConceptRows(cs[..j + 1][i]));
    assert bs[..j] == seq(j, i requires 0 <= i < j => RealConceptRows(cs[..j][i]));
  }

  /** `conceptos.forEach(...)` for one month of the Reales sheet. */
  method PushConceptos(rows: seq<RealRow>, conceptos: seq<ActualConcept>) returns (out: seq<RealRow>)
    ensures out == rows + RealConceptsRows(conceptos)
  {
    out := rows;
    var j := 0;
    while j < |conceptos|
      invariant 0 <= j <= |conceptos|
      invariant out == rows + RealConceptsRows(conceptos[..j])
    {
      out := PushConcepto(out, conceptos[j]);
      assert out == rows + RealConceptsRows(conceptos[..j + 1]) by {
        RealConceptsRowsSnoc(conceptos, j);
      }
      j := j + 1;
    }
    assert conceptos[..j] == conceptos;
  }

  /** One iteration of the second loop of `exportarExcel`: a month's
      summary row, its concepts' rows, the separator. */
  method PushRealMonth(rows: seq<RealRow>, mes: Month, rec: ActualRecord) returns (out: seq<RealRow>)
    ensures out == rows + RealBlock(mes, rec)
  {
    var ingreso := Value(rec.ingreso);
    var inversion := Value(rec.inversion);
    var ganadoInversion := Value(rec.ganadoInversion);
    var totalGastos := Sum(ConceptTotals(rec.conceptos));
    out := rows + [RealRow(MonthTitle(mes), Text("RESUMEN"), Empty, Empty, Empty, Number(ingreso),
                           Number(totalGastos), Number(inversion), Number(ganadoInversion),
                           Number(ingreso - totalGastos - inversion))];
    out := PushConceptos(out, rec.conceptos);
    out := out + [RealRow(Empty, Empty, Empty, Empty, Empty, Empty, Empty, Empty, Empty, Empty)];
  }

  /** The second loop of `exportarExcel`, pushing into `datosReales`. */
  method BuildReales(reales: map<Month, ActualRecord>, meses: seq<Month>) returns (rows: seq<RealRow>)
    ensures rows == RealesSheet(reales, meses)
  {
    rows := [];
    var i := 0;
    while i < |meses|
      invariant 0 <= i <= |meses|
      invariant rows == RealesSheet(reales, meses[..i])
    {
      rows := PushRealMonth(rows, meses[i], ActualFor(reales, meses[i]));
      assert meses[..i + 1][..i] == meses[..i];
      RealesSheetSnoc(reales, meses[..i + 1]);
      i := i + 1;
    }
    assert meses[..i] == meses;
  }

  lemma RealesSheetConcat(reales: map<Month, ActualRecord>, a: seq<Month>, b: seq<Month>)
    ensures RealesSheet(reales, a + b) == RealesSheet(reales, a) + RealesSheet(reales, b)
  {
    assert RealBlocks(reales, a + b) == RealBlocks(reales, a) + RealBlocks(reales, b);
    FlattenConcat(RealBlocks(reales, a), RealBlocks(reales, b));
  }

  /** Month `i`'s block follows the blocks of the months before it and
      starts with that month's summary row. */
  lemma RealesSheetLayout(reales: map<Month, ActualRecord>, meses: seq<Month>, i: nat)
    requires i < |meses|
    ensures RealesSheet(reales, meses)
         == RealesSheet(reales, meses[..i]) + RealMonthRows(reales, meses[i])
            + RealesSheet(reales, meses[i + 1..])
    ensures RealesSheet(reales, meses)[|RealesSheet(reales, meses[..i])|]
         == RealSummaryRow(meses[i], ActualFor(reales, meses[i]))
  {
    assert meses == meses[..i + 1] + meses[i + 1..];
    RealesSheetConcat(reales, meses[..i + 1], meses[i + 1..]);
    assert meses[..i + 1][..i] == meses[..i];
    RealesSheetSnoc(reales, meses[..i + 1]);
  }

  /** A concept takes one row when it has no expenses and one more row than
      it has expenses otherwise. */
  lemma RealConceptRowCount(c: ActualConcept)
    ensures |RealConceptRows(c)| == if c.gastos == [] then 1 else |c.gastos| + 1
  {
  }

  function RealMontoColumn(rows: seq<RealRow>): (s: seq<real>)
    ensures |s| == |rows|
  {
    if rows == [] then [] else RealMontoColumn(rows[..|rows| - 1]) + [CellValue(rows[|rows| - 1].monto)]
  }

  lemma {:induction false} RealMontoColumnConcat(a: seq<RealRow>, b: seq<RealRow>)
    ensures RealMontoColumn(a + b) == RealMontoColumn(a) + RealMontoColumn(b)
  {
    if b == [] {
      assert a + b == a;
    } else {
      var n := |b| - 1;
      assert (a + b)[..|a + b| - 1] == a + b[..n];
      RealMontoColumnConcat(a, b[..n]);
    }
  }

  lemma {:induction false} RealMontoColumnOfGastos(gs: seq<Gasto>)
    ensures RealMontoColumn(GastoRows(gs)) == GastoMontos(gs)
  {
    if gs != [] {
      var rows := GastoRows(gs);
      RealMontoColumnOfGastos(gs[..|gs| - 1]);
      assert rows[..|rows| - 1] == GastoRows(gs[..|gs| - 1]);
    }
  }

  /** A concept's 'Total:' row carries the sum of the Monto cells of its
      expense rows, so its rows' Monto cells add up to twice its total (and
      to nothing when it has no expenses). */
  lemma ConceptRowsMonto(c: ActualConcept)
    ensures c.gastos != [] ==>
      RealConceptRows(c)[0].monto == Number(Sum(RealMontoColumn(RealConceptRows(c)[1..])))
    ensures Sum(RealMontoColumn(RealConceptRows(c))) == 2.0 * ConceptTotal(c)
  {
    RealMontoColumnOfGastos(c.gastos);
    if c.gastos != [] {
      var rows := RealConceptRows(c);
      assert rows[1..] == GastoRows(c.gastos);
      RealMontoColumnConcat([rows[0]], rows[1..]);
      assert [rows[0]] + rows[1..] == rows;
      assert RealMontoColumn([rows[0]]) == [ConceptTotal(c)] by {
        assert [rows[0]][..0] == [];
      }
      SumAppend([ConceptTotal(c)], GastoMontos(c.gastos));
      assert Sum([ConceptTotal(c)]) == ConceptTotal(c) by {
        assert [ConceptTotal(c)][..0] == [];
      }
    }
  }

  /** The month summary's Total Gastos is the sum of its concepts' totals,
      and the Monto column of the concept rows, which holds both each
      'Total:' line and the expenses under it, adds up to twice that. */
  lemma {:induction false} RealSummaryMatchesConcepts(cs: seq<ActualConcept>)
    ensures Sum(RealMontoColumn(RealConceptsRows(cs))) == 2.0 * RealTotalGastos(cs)
  {
    if cs != [] {
      var n := |cs| - 1;
      RealSummaryMatchesConcepts(cs[..n]);
      RealConceptsRowsSnoc(cs, n);
      assert cs[..n + 1] == cs;
      RealMontoColumnConcat(RealConceptsRows(cs[..n]), RealConceptRows(cs[n]));
      SumAppend(RealMontoColumn(RealConceptsRows(cs[..n])), RealMontoColumn(RealConceptRows(cs[n])));
      ConceptRowsMonto(cs[n]);
    }
  }

  /** The Reales summary's Ahorro Real does not take the investment gain
      into account, which is shown in its own column. */
  lemma RealSummaryIgnoresGanancia(mes: Month, rec: ActualRecord, ganado: Amount)
    ensures RealSummaryRow(mes, rec).ahorro == RealSummaryRow(mes, rec.(ganadoInversion := ganado)).ahorro
    ensures RealSummaryRow(mes, rec.(ganadoInversion := ganado)).ganancia == Number(Value(ganado))
  {
  }

  // ----------------------------------------------- Resumen Mensual sheet

  datatype ResumenRow = ResumenRow(
    mes: Cell,
    ingresoEst: real, ingresoReal: real, desvIngreso: real,
    gastosEst: real, gastosReales: real, desvGastos: real,
    inversionEst: real, inversionReal: real, ganancia: real,
    ahorroEst: real, ahorroReal: real, desvAhorro: real,
    /** `None` stands for `NaN`, which the TOTALES row shows for no months. */
    cumplimiento: Option<real>)

  /** `gastosEstimados > 0 ? (est - real) / est * 100 : 0`: the share of
      the expense budget left unspent. */
  function Cumplimiento(gastosEst: real, gastosReales: real): real
  {
    if gastosEst > 0.0 then (gastosEst - gastosReales) / gastosEst * 100.0 else 0.0
  }

  /** The row `datosResumen` maps a month to. */
  function ResumenRowOf(estimados: map<Month, EstimateRecord>, reales: map<Month, ActualRecord>, mes: Month)
    : ResumenRow
  {
    var est := EstimateFor(estimados, mes);
    var act := ActualFor(reales, mes);
    var ingresoEstimado := Value(est.ingreso);
    var ingresoReal := Value(act.ingreso);
    var gastosEstimados := EstTotalGastos(est.conceptos);
    var gastosReales := RealTotalGastos(act.conceptos);
    var inversionEstimada := Value(est.inversion);
    var inversionReal := Value(act.inversion);
    var ahorroEstimado := ingresoEstimado - gastosEstimados - inversionEstimada;
    var ahorroReal := ingresoReal - gastosReales - inversionReal;
    ResumenRow(MonthTitle(mes),
               ingresoEstimado, ingresoReal, ingresoReal - ingresoEstimado,
               gastosEstimados, gastosReales, gastosReales - gastosEstimados,
               inversionEstimada, inversionReal, Value(act.ganadoInversion),
               ahorroEstimado, ahorroReal, ahorroReal - ahorroEstimado,
               Some(Cumplimiento(gastosEstimados, gastosReales)))
  }

  function ResumenRows(estimados: map<Month, EstimateRecord>, reales: map<Month, ActualRecord>,
                       meses: seq<Month>): (rows: seq<ResumenRow>)
    ensures |rows| == |meses|
  {
    seq(|meses|, i requires 0 <= i < |meses| => ResumenRowOf(estimados, reales, meses[i]))
  }

  /** Each deviation is the difference of its two columns and the
      savings deviation splits into the income deviation, minus the expense
      deviation, minus the investment deviation; the
      investment gain enters no saving; and the budget compliance is 100
      when nothing was spent, 0 on budget, negative over budget, and never
      above 100 for non-negative spending. */
  lemma ResumenRowSpec(estimados: map<Month, EstimateRecord>, reales: map<Month, ActualRecord>, mes: Month)
    ensures var r := ResumenRowOf(estimados, reales, mes);
      && Consistent(r)
      && r.ahorroReal == r.ingresoReal - r.gastosReales - r.inversionReal
      && r.cumplimiento.Some?
      && (r.gastosEst <= 0.0 ==> r.cumplimiento.value == 0.0)
      && (r.gastosEst > 0.0 && r.gastosReales == 0.0 ==> r.cumplimiento.value == 100.0)
      && (r.gastosEst > 0.0 && r.gastosReales == r.gastosEst ==> r.cumplimiento.value == 0.0)
      && (r.gastosEst > 0.0 && r.gastosReales > r.gastosEst ==> r.cumplimiento.value < 0.0)
      && (r.gastosReales >= 0.0 ==> r.cumplimiento.value <= 100.0)
  {
    var r := ResumenRowOf(estimados, reales, mes);
    var e, a := r.gastosEst, r.gastosReales;
    if e > 0.0 {
      assert (e - a) / e * e == e - a;
      if a >= 0.0 {
        DivAtMostOne(e - a, e);
      }
    }
  }

  lemma DivAtMostOne(p: real, q: real)
    requires q > 0.0 && p <= q
    ensures p / q <= 1.0
  {
    assert p / q * q == p;
  }

  /** The columns the TOTALES row sums. */
  datatype Column =
    | IngresoEst | IngresoReal | DesvIngreso
    | GastosEst | GastosReales | DesvGastos
    | InversionEst | InversionReal | Ganancia
    | AhorroEst | AhorroReal | DesvAhorro

  function Get(r: ResumenRow, col: Column): real
  {
    match col
    case IngresoEst => r.ingresoEst
    case IngresoReal => r.ingresoReal
    case DesvIngreso => r.desvIngreso
    case GastosEst => r.gastosEst
    case GastosReales => r.gastosReales
    case DesvGastos => r.desvGastos
    case InversionEst => r.inversionEst
    case InversionReal => r.inversionReal
    case Ganancia => r.ganancia
    case AhorroEst => r.ahorroEst
    case AhorroReal => r.ahorroReal
    case DesvAhorro => r.desvAhorro
  }

  /** `datosResumen.reduce((s, d) => s + d[col], 0)` */
  function ColumnSum(rows: seq<ResumenRow>, col: Column): real
  {
    if rows == [] then 0.0 else ColumnSum(rows[..|rows| - 1], col) + Get(rows[|rows| - 1], col)
  }

  /** The sum of the Cumplimiento column; a `NaN` anywhere makes it `NaN`. */
  function CumplimientoSum(rows: seq<ResumenRow>): Option<real>
  {
    if rows == [] then Some(0.0)
    else match (CumplimientoSum(rows[..|rows| - 1]), rows[|rows| - 1].cumplimiento)
      case (Some(s), Some(c)) => Some(s + c)
      case _ => None
  }

  /** The TOTALES row: each column summed, and the mean compliance, `NaN`
      (0 / 0) when there are no months. */
  function Totales(rows: seq<ResumenRow>): ResumenRow
  {
    ResumenRow(Text("TOTALES"),
               ColumnSum(rows, IngresoEst), ColumnSum(rows, IngresoReal), ColumnSum(rows, DesvIngreso),
               ColumnSum(rows, GastosEst), ColumnSum(rows, GastosReales), ColumnSum(rows, DesvGastos),
               ColumnSum(rows, InversionEst), ColumnSum(rows, InversionReal), ColumnSum(rows, Ganancia),
               ColumnSum(rows, AhorroEst), ColumnSum(rows, AhorroReal), ColumnSum(rows, DesvAhorro),
               match CumplimientoSum(rows)
               case Some(s) => if |rows| > 0 then Some(s / |rows| as real) else None
               case None => None)
  }

  /** Every month row carries a compliance figure, so their sum is defined. */
  lemma {:induction false} CumplimientoSumDefined(rows: seq<ResumenRow>)
    requires forall i :: 0 <= i < |rows| ==> rows[i].cumplimiento.Some?
    ensures CumplimientoSum(rows).Some?
  {
    if rows != [] {
      CumplimientoSumDefined(rows[..|rows| - 1]);
    }
  }

  lemma {:induction false} ColumnSumLinear(rows: seq<ResumenRow>, c: Column, a: Column, b: Column, d: Column, e: Column)
    requires forall i :: 0 <= i < |rows| ==>
      Get(rows[i], c) == Get(rows[i], a) - Get(rows[i], b) - (Get(rows[i], d) - Get(rows[i], e))
    ensures ColumnSum(rows, c) == ColumnSum(rows, a) - ColumnSum(rows, b) - (ColumnSum(rows, d) - ColumnSum(rows, e))
  {
    if rows != [] {
      ColumnSumLinear(rows[..|rows| - 1], c, a, b, d, e);
    }
  }

  /** Rows whose deviations are differences of their columns, and whose
      savings deviation splits into its three parts. */
  ghost predicate Consistent(r: ResumenRow)
  {
    && r.desvIngreso == r.ingresoReal - r.ingresoEst
    && r.desvGastos == r.gastosReales - r.gastosEst
    && r.desvAhorro == r.ahorroReal - r.ahorroEst
    && r.desvAhorro == r.desvIngreso - r.desvGastos - (r.inversionReal - r.inversionEst)
  }

  lemma ResumenRowConsistent(estimados: map<Month, EstimateRecord>, reales: map<Month, ActualRecord>, mes: Month)
    ensures Consistent(ResumenRowOf(estimados, reales, mes))
    ensures ResumenRowOf(estimados, reales, mes).cumplimiento.Some?
  {
  }

  /** The mean compliance of month rows is defined exactly when there is at
      least one month. */
  lemma TotalesCumplimiento(rows: seq<ResumenRow>)
    requires forall i :: 0 <= i < |rows| ==> rows[i].cumplimiento.Some?
    ensures Totales(rows).cumplimiento.Some? <==> |rows| > 0
  {
    CumplimientoSumDefined(rows);
  }

  lemma {:induction false} CumplimientoSumBounds(rows: seq<ResumenRow>, lo: real, hi: real)
    requires forall i :: 0 <= i < |rows| ==> rows[i].cumplimiento.Some?
    requires forall i :: 0 <= i < |rows| ==> lo <= rows[i].cumplimiento.value <= hi
    ensures CumplimientoSum(rows).Some?
    ensures |rows| as real * lo <= CumplimientoSum(rows).value <= |rows| as real * hi
  {
    if rows != [] {
      CumplimientoSumBounds(rows[..|rows| - 1], lo, hi);
    }
  }

  /** The TOTALES compliance is the mean of the months' figures: it lies
      between any bounds they all respect. */
  lemma TotalesCumplimientoMean(rows: seq<ResumenRow>, lo: real, hi: real)
    requires |rows| > 0
    requires forall i :: 0 <= i < |rows| ==> rows[i].cumplimiento.Some?
    requires forall i :: 0 <= i < |rows| ==> lo <= rows[i].cumplimiento.value <= hi
    ensures Totales(rows).cumplimiento.Some?
    ensures lo <= Totales(rows).cumplimiento.value <= hi
  {
    CumplimientoSumBounds(rows, lo, hi);
    var n := |rows| as real;
    var s := CumplimientoSum(rows).value;
    assert s / n * n == s;
    if s / n < lo {
      assert s / n * n < lo * n;
    }
    if s / n > hi {
      assert s / n * n > hi * n;
    }
  }

  /** Summing consistent rows column by column gives a consistent row: the
      TOTALES deviations are the deviations of the totals. */
  lemma TotalesConsistent(rows: seq<ResumenRow>)
    requires forall i :: 0 <= i < |rows| ==> Consistent(rows[i])
    ensures Consistent(Totales(rows))
  {
    ColumnSumLinear(rows, DesvIngreso, IngresoReal, IngresoEst, IngresoEst, IngresoEst);
    ColumnSumLinear(rows, DesvGastos, GastosReales, GastosEst, GastosEst, GastosEst);
    ColumnSumLinear(rows, DesvAhorro, AhorroReal, AhorroEst, AhorroEst, AhorroEst);
    ColumnSumLinear(rows, DesvAhorro, DesvIngreso, DesvGastos, InversionReal, InversionEst);
  }

  /** The TOTALES row of the export is consistent, its expense totals are
      the sums of the months' totals, and its mean compliance is defined
      exactly when there is at least one month (`NaN` otherwise). */
  lemma TotalesSpec(estimados: map<Month, EstimateRecord>, reales: map<Month, ActualRecord>, meses: seq<Month>)
    ensures Consistent(Totales(ResumenRows(estimados, reales, meses)))
    ensures Totales(ResumenRows(estimados, reales, meses)).cumplimiento.Some? <==> |meses| > 0
  {
    var rows := ResumenRows(estimados, reales, meses);
    forall i | 0 <= i < |rows| ensures Consistent(rows[i]) && rows[i].cumplimiento.Some? {
      ResumenRowConsistent(estimados, reales, meses[i]);
    }
    TotalesConsistent(rows);
    TotalesCumplimiento(rows);
  }

  /** The Resumen row of each month repeats the expense totals of that
      month's summary rows on the two other sheets. */
  lemma SheetsAgree(estimados: map<Month, EstimateRecord>, reales: map<Month, ActualRecord>,
                    meses: seq<Month>, i: nat)
    requires i < |meses|
    ensures EstRowCount(estimados, meses[..i]) < |EstimadosSheet(estimados, meses)|
    ensures |RealesSheet(reales, meses[..i])| < |RealesSheet(reales, meses)|
    ensures EstimadosSheet(estimados, meses)[EstRowCount(estimados, meses[..i])].totalGastos
         == Number(ResumenRows(estimados, reales, meses)[i].gastosEst)
    ensures RealesSheet(reales, meses)[|RealesSheet(reales, meses[..i])|].totalGastos
         == Number(ResumenRows(estimados, reales, meses)[i].gastosReales)
    ensures RealesSheet(reales, meses)[|RealesSheet(reales, meses[..i])|].ganancia
         == Number(ResumenRows(estimados, reales, meses)[i].ganancia)
  {
    EstimadosSheetLayout(estimados, meses, i);
    RealesSheetLayout(reales, meses, i);
  }

  // ------------------------------------------------------------ workbook

  datatype Workbook = Workbook(estimados: seq<EstRow>, reales: seq<RealRow>, resumen: seq<ResumenRow>)

  const SheetNames: seq<string> := ["Estimados", "Reales", "Resumen Mensual"]

  /** `exportarExcel` up to writing the file: the three sheets, the last
      one ending in its TOTALES row. */
  method ExportarExcel(estimados: map<Month, EstimateRecord>, reales: map<Month, ActualRecord>,
                       mesesDisponibles: seq<Month>) returns (wb: Workbook)
    ensures wb.estimados == EstimadosSheet(estimados, mesesDisponibles)
    ensures wb.reales == RealesSheet(reales, mesesDisponibles)
    ensures |wb.resumen| == |mesesDisponibles| + 1
    ensures wb.resumen[..|mesesDisponibles|] == ResumenRows(estimados, reales, mesesDisponibles)
    ensures wb.resumen[|mesesDisponibles|] == Totales(ResumenRows(estimados, reales, mesesDisponibles))
  {
    var datosEstimados := BuildEstimados(estimados, mesesDisponibles);
    var datosReales := BuildReales(reales, mesesDisponibles);
    var datosResumen := ResumenRows(estimados, reales, mesesDisponibles);
    var totales := Totales(datosResumen);
    datosResumen := datosResumen + [totales];
    wb := Workbook(datosEstimados, datosReales, datosResumen);
  }
}
