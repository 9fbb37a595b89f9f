# Personal finances: a verified model of the figures and forms

This project models, in Dafny, the deterministic logic of a small personal
finance web application. The user keeps a list of expense concepts
(`conceptos`). For each month they enter estimated amounts (`estimados`) and
actual amounts (`reales`): income (`ingreso`), investment (`inversion`), the
investment gain (`ganadoInversion`, actuals only) and one amount per concept.
The application then shows reports and exports a three-sheet spreadsheet.

Five parts of the application are modelled, each in its own module:

- `Amounts` (`amounts.dfy`): the shared numeric conventions.
  - An amount is blank or a number.
  - `Number(x || 0)` turns a blank amount into 0.
  - Sums fold from the left.
  - `Math.round` is floor(x + 0.5).
- `Conceptos` (`conceptos.dfy`): the concept-list editor.
  - Adding a concept is guarded by a `trim()` check; removing one filters by name.
  - The panel is a class whose fields are the list and the text input.
- `Forms` (`forms.dfy`): what the two entry forms share.
  - The flat store is keyed by `ingreso`, `inversion`, `ganadoInversion` and the concept names. Each entry is `{monto, mes}`.
  - It holds the loops of the month-load effect, the concept-reconcile effect and the save handler, each proved against a map-valued specification function.
- `Estimados` and `Reales` (`estimados.dfy`, `reales.dfy`): the two entry forms, as classes.
  - The form fields, `dirty`, `guardando` and the `lastLoadedMes` ref are class fields, together with the store prop that the setter replaces.
  - Handlers and effects are methods whose postconditions give the whole new state.
  - `Reales` also models the running total shown under its table.
- `Reportes` (`reportes.dfy`): the reports view, lifted out of the JSX as pure functions.
  - The KPIs and the per-concept table.
  - The deviation ranking, modelled as a stable insertion sort, and the largest deviation.
  - The most expensive concept and the budget-status classes.
- `ExportExcel` (`exportarexcel.dfy`): the spreadsheet export.
  - The Estimados and Reales sheets are built by imperative push loops, proved equal to sheet functions.
  - The Resumen Mensual sheet maps each month to a row, then pushes a TOTALES row of column sums.

The reports view and the forms read flat maps keyed by concept name. The
export reads month-keyed records. The model keeps both shapes as the code
has them and does not reconcile them.

The export and the reports view compute Ahorro Real differently; the model
follows each as written:

- The export's Ahorro Real, on both the Reales sheet and the Resumen sheet, does not add `ganadoInversion` (`src/utils/exportarExcel.js:96` and `:194`).
- The reports view's `ahorroReal` does add it (`src/components/Reportes.jsx:46`).

## Model

| member | source | states |
|---|---|---|
| Amounts.Round | src/components/Reportes.jsx:47 | `Math.round(x)` is an integer within half a unit of `x`, rounding halves up |
| Amounts.SumAppend | src/components/Reportes.jsx:36 | a left-fold sum over a concatenation is the sum of the two parts' sums |
| Conceptos.TrimEmptyIffBlank | src/components/Conceptos.jsx:8 | `nuevo.trim()` is empty exactly when every character of `nuevo` is ECMAScript whitespace or a line terminator |
| Conceptos.AgregadoSpec | src/components/Conceptos.jsx:8-11 | adding blank input leaves the list unchanged; otherwise exactly one `{nombre: nuevo}`, untrimmed, is appended after the unchanged earlier elements, with no duplicate check |
| Conceptos.Eliminado | src/components/Conceptos.jsx:16 | the filtered list holds exactly the concepts not carrying the removed name, and is no longer than the input |
| Conceptos.EliminadoConcat | src/components/Conceptos.jsx:16 | filtering distributes over concatenation, so the survivors keep their relative order |
| Conceptos.EliminadoCounts | src/components/Conceptos.jsx:16 | every concept with another name survives as often as it occurred; the removed name occurs zero times |
| Conceptos.EliminadoAbsent | src/components/Conceptos.jsx:16 | removing a name no concept has leaves the list unchanged |
| Conceptos.EliminadoIdempotent | src/components/Conceptos.jsx:16 | removing the same name twice is the same as removing it once |
| Conceptos.ConceptosPanel.constructor | src/components/Conceptos.jsx:4-5 | the panel starts with the given list and an empty input |
| Conceptos.ConceptosPanel.SetNuevo | src/components/Conceptos.jsx:30 | typing replaces the input and nothing else |
| Conceptos.ConceptosPanel.AgregarConcepto | src/components/Conceptos.jsx:7-13 | blank input leaves the list and the input as they were; otherwise the untrimmed input is appended and the input is cleared |
| Conceptos.ConceptosPanel.EliminarConcepto | src/components/Conceptos.jsx:15-18 | the list becomes its filter by name, no element carries that name, and the input is untouched |
| Forms.LoadMontos | src/components/Estimados.jsx:32-35 | the month-load loop builds a map with exactly one key per concept, holding the stored amount when it was saved for the selected month and blank otherwise |
| Forms.ReconcileMontos | src/components/Estimados.jsx:48-68 | copying the map, adding the missing concepts and deleting every key no concept has yields the reconciled map |
| Forms.ReconciledSpec | src/components/Estimados.jsx:48-68 | after reconciling, the keys are exactly the concept names, typed amounts of remaining concepts are kept, new concepts take their stored amount for the month or blank, and every input shows the map's value |
| Forms.ReconciledIdempotent | src/components/Estimados.jsx:45-69 | reconciling a reconciled map changes nothing, and neither does reconciling right after a month load |
| Forms.AddMissingSnoc | src/components/Estimados.jsx:51-60 | each step of the first reconcile pass adds the concept only when its key is absent, leaving present keys alone |
| Forms.DeletedStale | src/components/Estimados.jsx:62-66 | deleting the keys no concept has from the first pass's map leaves exactly the reconciled map |
| Forms.WriteConcepts | src/components/Estimados.jsx:85-87 | the save loop overwrites every concept key with `{monto: conceptosMontos[nombre] or blank, mes}` on top of the base record |
| Forms.WithConceptsSnoc | src/components/Estimados.jsx:85-87 | each step of the save loop overwrites one concept key and nothing else |
| Forms.SavedSpec | src/components/Estimados.jsx:80-87 | the saved record has the old keys plus the general fields and concept names; the general fields and every concept are stamped with the month, a missing amount is saved blank, and every other key keeps its old entry |
| Forms.SpreadTwo | src/components/Estimados.jsx:80-84 | the object spread with `ingreso` and `inversion` overrides is the old store updated with those two stamped entries |
| Forms.SpreadThree | src/components/Reales.jsx:84-89 | the same with `ganadoInversion` as a third override |
| Estimados.EstimadosForm.constructor | src/components/Estimados.jsx:5-11 | the form starts with no month, blank fields, an empty amount map, clean, not saving, nothing loaded |
| Estimados.EstimadosForm.SetMes | src/components/Estimados.jsx:123 | the month input replaces `mes` and nothing else |
| Estimados.EstimadosForm.LoadMonthEffect | src/components/Estimados.jsx:14-42 | re-selecting the last loaded month changes nothing; the empty month clears the fields and the map; any other month loads each field and one amount per concept only when its stored `mes` matches; both leave the form clean and remember the month |
| Estimados.EstimadosForm.ReconcileEffect | src/components/Estimados.jsx:45-69 | with no month selected the map is unchanged; otherwise it becomes the reconciled map |
| Estimados.EstimadosForm.SelectMonth | src/components/Estimados.jsx:14-69 | picking a month runs the load effect and then the reconcile effect: a new month ends loaded and clean, the empty month ends cleared, returning to the month last loaded keeps the fields, `dirty` and the loaded month and only reconciles the concept amounts, and the unchanged value leaves everything as it was |
| Estimados.EstimadosForm.StoreChanged | src/components/Estimados.jsx:14-69 | a new `estimados` prop runs the load effect then the reconcile effect: with the loaded month still selected, the general fields and `dirty` keep their old values and only the concept amounts are reconciled against the new store; otherwise the form is reloaded from the new store; an identical prop changes nothing |
| Estimados.EstimadosForm.HandleConceptoMonto | src/components/Estimados.jsx:103-106 | one concept's amount is set, the others are kept, and the form is dirty |
| Estimados.EstimadosForm.HandleGeneralChange | src/components/Estimados.jsx:109-112 | with the inputs enabled (not saving), the chosen field is set, the other kept, the form is dirty and the save button enabled |
| Estimados.EstimadosForm.BeginSave | src/components/Estimados.jsx:72-87 | with no month nothing is built and nothing changes; otherwise `guardando` is raised, the button is disabled, and the record handed to the setter is the saved record |
| Estimados.EstimadosForm.FinishSave | src/components/Estimados.jsx:88-99 | an accepted save replaces the store and cleans the form, a failed one keeps both; `guardando` drops either way, so the button is enabled exactly when the form is dirty |
| Estimados.EstimadosForm.GuardarEstimado | src/components/Estimados.jsx:72-100 | saving with no month changes nothing; otherwise the store becomes the saved record and the form is clean when the setter accepts it, the store and `dirty` stay when it fails, and `guardando` ends false |
| Reales.RealesForm.constructor | src/components/Reales.jsx:5-12 | the form starts with no month, blank fields including `ganadoInversion`, an empty map, clean, not saving |
| Reales.RealesForm.SetMes | src/components/Reales.jsx:125 | the month input replaces `mes` and nothing else |
| Reales.RealesForm.LoadMonthEffect | src/components/Reales.jsx:15-46 | as for the estimates form, with `ganadoInversion` loaded only when its stored `mes` matches and cleared for the empty month |
| Reales.RealesForm.ReconcileEffect | src/components/Reales.jsx:49-73 | with no month selected the map is unchanged; otherwise it becomes the reconciled map |
| Reales.RealesForm.SelectMonth | src/components/Reales.jsx:15-73 | picking a month runs the load effect and then the reconcile effect, with the same four outcomes as the estimates form |
| Reales.RealesForm.StoreChanged | src/components/Reales.jsx:15-73 | a new `reales` prop runs the load effect then the reconcile effect: with the loaded month still selected, the three general fields and `dirty` keep their old values and only the concept amounts are reconciled; otherwise the form is reloaded from the new store; an identical prop changes nothing |
| Reales.RealesForm.HandleConceptoMonto | src/components/Reales.jsx:105-108 | one concept's amount is set, the others are kept, and the form is dirty |
| Reales.RealesForm.HandleGeneralChange | src/components/Reales.jsx:111-114 | with the inputs enabled, the chosen one of the three fields is set, the others kept, and the form is dirty with the button enabled |
| Reales.RealesForm.BeginSave | src/components/Reales.jsx:76-92 | with no month nothing is built; otherwise `guardando` is raised and the record overwrites `ingreso`, `inversion`, `ganadoInversion` and every concept key, leaving the rest |
| Reales.RealesForm.FinishSave | src/components/Reales.jsx:93-101 | an accepted save replaces the store and cleans the form, a failed one keeps both; `guardando` drops either way |
| Reales.RealesForm.GuardarReal | src/components/Reales.jsx:76-102 | the whole save: unchanged without a month, the saved record and a clean form on success, the old store and flag on failure, `guardando` false afterwards |
| Reales.RealesForm.DisplayedTotal | src/components/Reales.jsx:207-209 | visiting the stored entries one by one yields the sum of `Number(monto or 0)` over every entry of `reales` |
| Reales.StoreTotalRemove | src/components/Reales.jsx:208 | the sum over all entries does not depend on visiting order: any entry can be taken out first |
| Reales.TotalIncludesGeneralFields | src/components/Reales.jsx:208 | the displayed total is the income, investment and investment-gain entries plus the sum of all other entries |
| Reales.DisplayedTotalCountsIncome | src/components/Reales.jsx:207-208 | a store holding only an income of 1000 shows 1000 under the concepts' total, where the concepts sum to 0 |
| Reales.RealesForm.ConceptosTotal | src/components/Reales.jsx:207 | the corrected total: the loop yields the sum of the listed concepts' stored amounts, as the reports view sums them |
| Reales.StoreTotalOfConcepts | src/components/Reales.jsx:208 | for a store whose keys all name distinct listed concepts, the sum over all entries equals the concepts' total |
| Reales.DisplayedTotalVersusConcepts | src/components/Reales.jsx:207-208 | for a store of the three general entries plus distinct concepts, the displayed total exceeds the concepts' total by exactly income + investment + gain |
| Reportes.Labels | src/components/Reportes.jsx:33 | the labels are the concept names, in order, one per concept |
| Reportes.TotalSnoc | src/components/Reportes.jsx:34-37 | each label adds its stored amount to the total, and a label with nothing stored adds zero |
| Reportes.RoundedPercent | src/components/Reportes.jsx:47-48 | a zero total gives 0; otherwise the result is within half a point of the exact percentage |
| Reportes.RoundedPercentBounds | src/components/Reportes.jsx:47 | spending exactly a positive estimate is 100%, spending between 0 and the estimate stays within 0..100, overspending is at least 100 |
| Reportes.KpisSpec | src/components/Reportes.jsx:33-49 | `diferencia` is the income deviation minus the expense deviation minus the investment deviation plus the gain; compliance is 0 without an estimate, exactly 100 on budget, within 0..100 under budget and at least 100 over it; investment share is 0 without income |
| Reportes.KpisOfEmptyStores | src/components/Reportes.jsx:34-49 | with nothing stored every KPI is zero, whatever the concepts |
| Reportes.DiffSum | src/components/Reportes.jsx:314 | the per-concept differences add up to the actual total minus the estimated total |
| Reportes.ShareSum | src/components/Reportes.jsx:316 | the per-concept shares of a positive total add up to the sum over the total times 100 |
| Reportes.DetailTotals | src/components/Reportes.jsx:311-347 | the table's difference column adds up to the TOTAL row's `totalReal - totalEst`; with a positive actual total the "% del Total" column adds up to the 100% printed there, and otherwise every share is 0 |
| Reportes.NonZero | src/components/Reportes.jsx:364 | the filter keeps exactly the deviations greater than zero |
| Reportes.InsertPerm | src/components/Reportes.jsx:364 | inserting adds exactly the one element |
| Reportes.InsertSorted | src/components/Reportes.jsx:364 | inserting into a descending list keeps it descending |
| Reportes.SortDescSpec | src/components/Reportes.jsx:364 | the sort's result is descending by deviation and a permutation of its input |
| Reportes.InsertStable | src/components/Reportes.jsx:364 | inserting puts the element after every element with the same deviation |
| Reportes.SortDescStable | src/components/Reportes.jsx:364 | for every deviation value, the elements having it keep their input order |
| Reportes.RankingSpec | src/components/Reportes.jsx:359-364 | the list is descending, a permutation of the non-zero deviations, holds exactly the concepts whose actual differs from the estimate, and keeps label order among ties |
| Reportes.MayorDesvioSpec | src/components/Reportes.jsx:366 | `mayorDesvio` is absent exactly when every actual equals its estimate; otherwise it has the largest deviation and is the first concept, in label order, to reach it |
| Reportes.MasCaroUpTo | src/components/Reportes.jsx:367-368 | folding over the first n labels yields the index of the first maximal amount among them, or 0 when n is 0 |
| Reportes.ConceptoMasCaro | src/components/Reportes.jsx:367-368 | `conceptoMasCaro` is the index of the first largest actual amount, and 0 for an empty list |
| Reportes.ProgressWidth | src/components/Reportes.jsx:220 | the bar width is the compliance, capped at 100 |
| Reportes.BudgetStatusSpec | src/components/Reportes.jsx:217-227 | the bar is danger above 100, warning above 80 and success otherwise; exactly one message shows and it matches the colour; the bar is full exactly from 100 on |
| ExportExcel.PushEstConceptos | src/utils/exportarExcel.js:36-47 | the inner loop appends one 'Gasto' row per concept, in order, carrying its name and `Number(monto or 0)` |
| ExportExcel.PushEstMonth | src/utils/exportarExcel.js:15-52 | one month appends its RESUMEN row, its concepts' rows and a blank row |
| ExportExcel.BuildEstimados | src/utils/exportarExcel.js:14-53 | the nested push loops produce exactly the Estimados sheet |
| ExportExcel.EstimadosSheetConcat | src/utils/exportarExcel.js:15-53 | the sheet for two month lists one after the other is the two sheets one after the other |
| ExportExcel.EstimadosSheetLength | src/utils/exportarExcel.js:15-53 | the sheet has Σ(len(conceptos) + 2) rows over the months |
| ExportExcel.EstimadosSheetLayout | src/utils/exportarExcel.js:15-53 | month i's block (RESUMEN row, one Gasto row per concept in order, blank row) sits between the earlier and later months' rows, and its summary is at the row offset of the earlier months |
| ExportExcel.EstBlockOfMissingMonth | src/utils/exportarExcel.js:16-21 | a month with no estimate record gives a summary of zeros and no concept rows |
| ExportExcel.EstMontoColumnOfConcepts | src/utils/exportarExcel.js:36-47 | the concept rows' Monto cells are the concepts' `Number(monto or 0)`, in order |
| ExportExcel.EstSummaryMatchesConcepts | src/utils/exportarExcel.js:21-32 | the summary's Total Gastos is the sum of the concept rows' Monto cells, and Ahorro Estimado is Ingreso − Total Gastos − Inversión |
| ExportExcel.PushConcepto | src/utils/exportarExcel.js:100-148 | a concept pushes its rows: one row with an empty Monto when it has no expenses, else a 'Total:' row and one row per expense |
| ExportExcel.PushConceptos | src/utils/exportarExcel.js:100-149 | the concept loop appends every concept's rows in order |
| ExportExcel.PushRealMonth | src/utils/exportarExcel.js:73-154 | one month appends its RESUMEN row, its concepts' rows and a blank row |
| ExportExcel.BuildReales | src/utils/exportarExcel.js:72-155 | the nested push loops produce exactly the Reales sheet |
| ExportExcel.RealConceptsRowsSnoc | src/utils/exportarExcel.js:100 | the rows of one more concept follow the rows of the earlier ones |
| ExportExcel.RealesSheetConcat | src/utils/exportarExcel.js:73-155 | the sheet for two month lists one after the other is the two sheets one after the other |
| ExportExcel.RealesSheetLayout | src/utils/exportarExcel.js:73-155 | month i's block sits between the earlier and later months' rows and begins with its summary at their row count |
| ExportExcel.RealConceptRowCount | src/utils/exportarExcel.js:103-147 | a concept takes one row without expenses and one more than its expense count otherwise |
| ExportExcel.ConceptRowsMonto | src/utils/exportarExcel.js:119-147 | the 'Total:' Monto is the sum of its expense rows' Monto cells, so a concept's Monto cells add up to twice its total |
| ExportExcel.RealSummaryMatchesConcepts | src/utils/exportarExcel.js:80-83 | the concept rows' Monto column adds up to twice the summary's Total Gastos, because it holds both each 'Total:' line and its expenses |
| ExportExcel.RealSummaryIgnoresGanancia | src/utils/exportarExcel.js:95-96 | the Reales summary's Ahorro Real does not change with `ganadoInversion`, which only fills its own column |
| ExportExcel.ResumenRowSpec | src/utils/exportarExcel.js:176-219 | each deviation is real minus estimate, the savings deviation splits into income, expense and investment deviations, Ahorro Real leaves out the gain, and compliance is 0 without estimate, 100 when nothing was spent, 0 on budget, negative over budget and at most 100 for non-negative spending |
| ExportExcel.ResumenRowConsistent | src/utils/exportarExcel.js:193-202 | every month row's deviations are differences of its columns and it carries a compliance figure |
| ExportExcel.ColumnSumLinear | src/utils/exportarExcel.js:225-236 | a column that is a difference of columns in every row sums to the same difference of the column sums |
| ExportExcel.TotalesConsistent | src/utils/exportarExcel.js:223-236 | summing consistent rows column by column gives a consistent TOTALES row, so for example total Desv. Gastos = total Gastos Reales − total Gastos Est. |
| ExportExcel.CumplimientoSumDefined | src/utils/exportarExcel.js:237 | the compliance column sum is a number when every row has one |
| ExportExcel.CumplimientoSumBounds | src/utils/exportarExcel.js:237 | the compliance column sum lies between n·lo and n·hi when every row lies between lo and hi |
| ExportExcel.TotalesCumplimiento | src/utils/exportarExcel.js:237 | the TOTALES compliance is defined (not NaN) exactly when there is at least one month |
| ExportExcel.TotalesCumplimientoMean | src/utils/exportarExcel.js:237 | the TOTALES compliance is the mean of the months' figures: it lies within any bounds all months respect |
| ExportExcel.TotalesSpec | src/utils/exportarExcel.js:222-240 | the exported TOTALES row is consistent, and its compliance is NaN exactly for an empty month list |
| ExportExcel.SheetsAgree | src/utils/exportarExcel.js:176-210 | the Resumen row of month i repeats the Total Gastos of that month's summaries on the Estimados and Reales sheets, and its gain |
| ExportExcel.ExportarExcel | src/utils/exportarExcel.js:10-240 | the workbook holds the Estimados and Reales sheets, then the month rows with the TOTALES row pushed last, giving months + 1 rows |

## Findings

| source | as written | input that shows it | evidently intended | confidence | as-written member | corrected member |
|---|---|---|---|---|---|---|
| src/components/Reales.jsx:207-208 | the line labelled "Total real (conceptos)" sums `Number(monto or 0)` over every entry of `reales`, including `ingreso`, `inversion` and `ganadoInversion` | `reales = {ingreso: {monto: 1000, mes: '2024-03'}}` with no concepts shows 1000 | the sum of the listed concepts' stored amounts, as the reports view computes `totalReal` | medium, not executed | Reales.DisplayedTotalCountsIncome | Reales.RealesForm.ConceptosTotal |

`Reales.RealesForm.DisplayedTotal` models the line as written.
`Reales.DisplayedTotalVersusConcepts` states the gap in general: income + investment + gain.

## Left out

- Firebase, Firestore, the sign-in header and `App.jsx` are not part of this model. They are SDK initialisation, network persistence and wiring.
  - The components take `conceptos` and the stores as explicit inputs.
  - `exportarExcel(estimados, reales, mesesDisponibles)` takes the month list as its third parameter, and the model does too. Both callers (`src/App.jsx:49`, `src/components/Reportes.jsx:29`) omit it, so every export the application starts throws a TypeError at `src/utils/exportarExcel.js:15`. The model describes the function when it is given a month list.
- The XLSX calls, column widths, sheet-to-file writing and the file name are left out. A workbook is the three row lists.
- Locale formatting (`toLocaleDateString`, `toLocaleString`) and `toFixed` are left out.
  - A month title is an opaque cell carrying the month key.
  - Percentages are kept as exact numbers. This covers the export's Cumplimiento %, which the code rounds to one decimal, and the reports view's shares and deviation percentages.
  - The TOTALES compliance is stored as text in the code; here it is a number.
- Amounts are unbounded reals. Floating-point rounding is not modelled.
  - Non-numeric strings, which `Number` turns into NaN, are not modelled: an amount is blank or a number.
  - The only NaN modelled is the TOTALES compliance for an empty month list (`None`).
- React scheduling, `async`/`await` and `alert` are left out.
  - Effects and handlers are explicit method calls.
  - `SelectMonth` runs the two effects in declaration order.
  - The outcome of the awaited setter is the `accepted` parameter of `FinishSave` and of the save methods.
- The chart configurations, the tabs state, the "Mayor Gasto" share text and the insight messages of the reports view (`src/components/Reportes.jsx:370-403`) are not modelled.
- Forms.Reconciled, Forms.LoadedMontos and Forms.WithConcepts: the stores and amount maps are plain maps. JavaScript objects also answer `in` for inherited `Object.prototype` members (`toString`, `constructor`, `valueOf`, ...), and assigning to `__proto__` creates no own key. Concept names that are `Object.prototype` member names, and their effect on reconciling, showing and saving, are not modelled.
- The application has no cumulative investment/ROI series, cross-month summary, compliance score or month-key validation; none is modelled.
- Reales.RealesForm.DisplayedTotal: `Object.values` visits entries in insertion order. The model visits them in any order and proves the sum does not depend on it (`Reales.StoreTotalRemove`).
- Reales.DisplayedTotalVersusConcepts: stated only for stores whose keys are the three general fields and distinct concept names. Stale keys of removed concepts also enter the displayed total; this lemma does not cover them.
