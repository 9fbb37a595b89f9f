/**
 * The actuals entry form (`src/components/Reales.jsx`): the same state as
 * the estimates form plus the realised investment gain `ganadoInversion`,
 * and the running total shown under the concept table. React effects and
 * handlers become methods; the `reales` prop is a field that the setter
 * replaces.
 */
module Reales {
  import opened Amounts
  import opened Conceptos
  import opened Forms
  import Reportes

  /** The general fields `handleGeneralChange` is curried over. */
  datatype GeneralField = Ingreso | Inversion | GanadoInversion

  /** The record `guardarReal` builds from the form. */
  function SavedReales(reales: Store, ingreso: Amount, inversion: Amount, ganadoInversion: Amount,
                       conceptos: seq<Concepto>, montos: map<string, Amount>, mes: string): Store
  {
    Saved(reales, map["ingreso" := ingreso, "inversion" := inversion, "ganadoInversion" := ganadoInversion],
          conceptos, montos, mes)
  }

  /** The running total under the concept table,
      `Object.values(reales).reduce((acc, r) => acc + Number(r?.monto || 0), 0)`:
      the amounts of every stored entry, whatever its key. */
  ghost function StoreTotal(store: Store): real
    decreases |store|
  {
    if store == map[] then 0.0
    else
      var k :| k in store;
      Value(store[k].monto) + StoreTotal(store - {k})
  }

  /** The total does not depend on the order the entries are visited in:
      any entry can be taken out first. */
  lemma {:induction false} StoreTotalRemove(store: Store, key: string)
    requires key in store
    ensures StoreTotal(store) == Value(store[key].monto) + StoreTotal(store - {key})
    decreases |store|
  {
    var k :| k in store && StoreTotal(store) == Value(store[k].monto) + StoreTotal(store - {k});
    if k != key {
      StoreTotalRemove(store - {k}, key);
      StoreTotalRemove(store - {key}, k);
      assert store - {k} - {key} == store - {key} - {k};
    }
  }

  /** The displayed total adds the income, investment and investment-gain
      entries to the concept amounts. */
  lemma TotalIncludesGeneralFields(store: Store)
    ensures StoreTotal(store)
         == StoredValue(store, "ingreso") + StoredValue(store, "inversion")
            + StoredValue(store, "ganadoInversion")
            + StoreTotal(store - {"ingreso", "inversion", "ganadoInversion"})
  {
    var s1 := store - {"ingreso"};
    var s2 := s1 - {"inversion"};
    var s3 := s2 - {"ganadoInversion"};
    if "ingreso" in store { StoreTotalRemove(store, "ingreso"); } else { assert s1 == store; }
    if "inversion" in s1 { StoreTotalRemove(s1, "inversion"); } else { assert s2 == s1; }
    if "ganadoInversion" in s2 { StoreTotalRemove(s2, "ganadoInversion"); } else { assert s3 == s2; }
    assert s3 == store - {"ingreso", "inversion", "ganadoInversion"};
  }

  /** The sum of the listed concepts' stored amounts, the way the reports
      view computes `totalReal`. */
  function ConceptosSum(store: Store, conceptos: seq<Concepto>): real
  {
    Sum(Reportes.Data(store, Reportes.Labels(conceptos)))
  }

  predicate DistinctNames(conceptos: seq<Concepto>)
  {
    forall i, j :: 0 <= i < j < |conceptos| ==> conceptos[i].nombre != conceptos[j].nombre
  }

  /** The last of distinctly named concepts is not named by the others. */
  lemma LastNameFresh(conceptos: seq<Concepto>)
    requires DistinctNames(conceptos) && conceptos != []
    ensures conceptos[|conceptos| - 1].nombre !in Names(conceptos[..|conceptos| - 1])
  {
    var n := |conceptos| - 1;
    forall c | c in conceptos[..n] ensures c.nombre != conceptos[n].nombre {
      var i :| 0 <= i < n && conceptos[..n][i] == c;
      assert conceptos[i] == c;
    }
  }

  /** Dropping a key no label names does not change the labels' amounts. */
  lemma DataWithout(store: Store, key: string, labels: seq<string>)
    requires key !in labels
    ensures Reportes.Data(store - {key}, labels) == Reportes.Data(store, labels)
  {
    forall i | 0 <= i < |labels|
      ensures Reportes.Data(store - {key}, labels)[i] == Reportes.Data(store, labels)[i]
    {
      assert labels[i] != key;
    }
  }

  /** A store whose keys all name distinct concepts totals to the sum of
      those concepts' amounts. */
  lemma {:induction false} StoreTotalOfConcepts(store: Store, conceptos: seq<Concepto>)
    requires store.Keys <= Names(conceptos)
    requires DistinctNames(conceptos)
    ensures StoreTotal(store) == ConceptosSum(store, conceptos)
    decreases |conceptos|
  {
    if conceptos == [] {
      assert store == map[];
    } else {
      var n := |conceptos| - 1;
      var init, last := conceptos[..n], conceptos[n].nombre;
      var labels := Reportes.Labels(init);
      assert conceptos == init + [conceptos[n]];
      NamesSnoc(init, conceptos[n]);
      LastNameFresh(conceptos);
      var rest := store - {last};
      assert DistinctNames(init);
      StoreTotalOfConcepts(rest, init);
      assert last !in labels;
      DataWithout(store, last, labels);
      assert Reportes.Labels(conceptos) == labels + [last];
      Reportes.TotalSnoc(store, labels, last);
      if last in store {
        StoreTotalRemove(store, last);
      } else {
        assert rest == store;
      }
    }
  }

  /** The concepts' total does not read the general fields. */
  lemma ConceptosSumWithoutGeneral(store: Store, conceptos: seq<Concepto>)
    requires forall i :: 0 <= i < |conceptos| ==> conceptos[i].nombre !in {"ingreso", "inversion", "ganadoInversion"}
    ensures ConceptosSum(store - {"ingreso", "inversion", "ganadoInversion"}, conceptos) == ConceptosSum(store, conceptos)
  {
    var rest := store - {"ingreso", "inversion", "ganadoInversion"};
    var labels := Reportes.Labels(conceptos);
    forall i | 0 <= i < |labels|
      ensures Reportes.Data(rest, labels)[i] == Reportes.Data(store, labels)[i]
    {
      assert labels[i] == conceptos[i].nombre;
    }
    assert Reportes.Data(rest, labels) == Reportes.Data(store, labels);
  }

  /** The running total labelled "Total real (conceptos)" is the concepts'
      total plus the income, the investment and the investment gain, for
      any store holding only those entries and distinct concepts. */
  lemma DisplayedTotalVersusConcepts(store: Store, conceptos: seq<Concepto>)
    requires DistinctNames(conceptos)
    requires forall i :: 0 <= i < |conceptos| ==> conceptos[i].nombre !in {"ingreso", "inversion", "ganadoInversion"}
    requires store.Keys <= {"ingreso", "inversion", "ganadoInversion"} + Names(conceptos)
    ensures StoreTotal(store)
         == ConceptosSum(store, conceptos)
            + StoredValue(store, "ingreso") + StoredValue(store, "inversion")
            + StoredValue(store, "ganadoInversion")
  {
    var rest := store - {"ingreso", "inversion", "ganadoInversion"};
    TotalIncludesGeneralFields(store);
    StoreTotalOfConcepts(rest, conceptos);
    ConceptosSumWithoutGeneral(store, conceptos);
  }

  /** A month with an income of 1000 and no concepts shows 1000 as its
      concepts' total, where the concepts add up to nothing. */
  lemma DisplayedTotalCountsIncome()
    ensures var store := map["ingreso" := Entry(Num(1000.0), "2024-03")];
      StoreTotal(store) == 1000.0 && ConceptosSum(store, []) == 0.0
  {
    var store := map["ingreso" := Entry(Num(1000.0), "2024-03")];
    StoreTotalRemove(store, "ingreso");
    assert store - {"ingreso"} == map[];
  }

  class RealesForm {
    var mes: string
    var ingreso: Amount
    var inversion: Amount
    var ganadoInversion: Amount
    var conceptosMontos: map<string, Amount>
    var dirty: bool
    var guardando: bool
    /** The `lastLoadedMes` ref. */
    var lastLoadedMes: string
    /** The `reales` prop; `setReales` replaces it. */
    var reales: Store

    constructor (reales: Store)
      ensures mes == "" && ingreso == Blank && inversion == Blank && ganadoInversion == Blank
      ensures conceptosMontos == map[]
      ensures !dirty && !guardando && lastLoadedMes == "" && this.reales == reales
    {
      mes, ingreso, inversion, ganadoInversion, conceptosMontos := "", Blank, Blank, Blank, map[];
      dirty, guardando, lastLoadedMes := false, false, "";
      this.reales := reales;
    }

    /** `disabled={!dirty || guardando}` on the save button, negated. */
    predicate SaveEnabled()
      reads this
    {
      dirty && !guardando
    }

    /** The month input's `onChange`. */
    method SetMes(value: string)
      modifies this`mes
      ensures mes == value
    {
      mes := value;
    }

    /** The effect on `[mes, reales]`: unless the month is the one last
        loaded, clear the form (no month) or load the stored values saved for
        this month; either way the form is clean afterwards. */
    method LoadMonthEffect(conceptos: seq<Concepto>)
      modifies this`lastLoadedMes, this`ingreso, this`inversion, this`ganadoInversion,
               this`conceptosMontos, this`dirty
      ensures old(mes == lastLoadedMes) ==>
        lastLoadedMes == old(lastLoadedMes) && ingreso == old(ingreso) && inversion == old(inversion)
        && ganadoInversion == old(ganadoInversion)
        && conceptosMontos == old(conceptosMontos) && dirty == old(dirty)
      ensures old(mes != lastLoadedMes) ==> lastLoadedMes == mes && !dirty
      ensures old(mes != lastLoadedMes) && mes == "" ==>
        ingreso == Blank && inversion == Blank && ganadoInversion == Blank && conceptosMontos == map[]
      ensures old(mes != lastLoadedMes) && mes != "" ==>
        && ingreso == LoadedAmount(reales, "ingreso", mes)
        && inversion == LoadedAmount(reales, "inversion", mes)
        && ganadoInversion == LoadedAmount(reales, "ganadoInversion", mes)
        && conceptosMontos == LoadedMontos(reales, conceptos, mes)
    {
      var mes, reales := this.mes, this.reales;
      if mes == lastLoadedMes {
        return;
      }
      lastLoadedMes := mes;
      if mes == "" {
        ingreso, inversion, ganadoInversion, conceptosMontos, dirty := Blank, Blank, Blank, map[], false;
        return;
      }
      var newIngreso := LoadedAmount(reales, "ingreso", mes);
      var newInversion := LoadedAmount(reales, "inversion", mes);
      var newGanado := LoadedAmount(reales, "ganadoInversion", mes);
      var montos := LoadMontos(reales, conceptos, mes);
      ingreso, inversion, ganadoInversion := newIngreso, newInversion, newGanado;
      conceptosMontos, dirty := montos, false;
    }

    /** The effect on `[conceptos, mes, reales]`: with a month selected,
        add the concepts the amount map lacks and delete the keys of removed
        concepts; without one, do nothing. */
    method ReconcileEffect(conceptos: seq<Concepto>)
      modifies this`conceptosMontos
      ensures mes == "" ==> conceptosMontos == old(conceptosMontos)
      ensures mes != "" ==> conceptosMontos == Reconciled(old(conceptosMontos), reales, conceptos, mes)
    {
      var mes, reales, prev := this.mes, this.reales, this.conceptosMontos;
      if mes == "" {
        return;
      }
      var updated := ReconcileMontos(prev, reales, conceptos, mes);
      conceptosMontos := updated;
    }

    /** Computes the running total by visiting the stored entries one by one. */
    method DisplayedTotal() returns (total: real)
      ensures total == StoreTotal(reales)
    {
      total := 0.0;
      var rest := reales;
      while rest != map[]
        invariant total + StoreTotal(rest) == StoreTotal(reales)
        decreases |rest|
      {
        var k :| k in rest;
        StoreTotalRemove(rest, k);
        total := total + Value(rest[k].monto);
        rest := rest - {k};
      }
    }

    /** The total the label announces: the stored amounts of the listed
        concepts, each taken once per concept, as the reports view sums
        them. */
    method ConceptosTotal(conceptos: seq<Concepto>) returns (total: real)
      ensures total == ConceptosSum(reales, conceptos)
    {
      total := 0.0;
      var i := 0;
      while i < |conceptos|
        invariant 0 <= i <= |conceptos|
        invariant total == ConceptosSum(reales, conceptos[..i])
      {
        assert Reportes.Labels(conceptos[..i + 1]) == Reportes.Labels(conceptos[..i]) + [conceptos[i].nombre];
        Reportes.TotalSnoc(reales, Reportes.Labels(conceptos[..i]), conceptos[i].nombre);
        total := total + StoredValue(reales, conceptos[i].nombre);
        i := i + 1;
      }
      assert conceptos[..i] == conceptos;
    }

    /** Picking a month in the input: an unchanged value causes no render;
        otherwise React re-renders and runs the month-load effect and then the
        reconcile effect, in declaration order. */
    method SelectMonth(value: string, conceptos: seq<Concepto>)
      modifies this`mes, this`lastLoadedMes, this`ingreso, this`inversion, this`ganadoInversion,
               this`conceptosMontos, this`dirty
      ensures mes == value
      ensures value != old(mes) && value != old(lastLoadedMes) && value != "" ==>
        && lastLoadedMes == value && !dirty
        && ingreso == LoadedAmount(reales, "ingreso", value)
        && inversion == LoadedAmount(reales, "inversion", value)
        && ganadoInversion == LoadedAmount(reales, "ganadoInversion", value)
        && conceptosMontos == LoadedMontos(reales, conceptos, value)
      ensures value != old(mes) && value != old(lastLoadedMes) && value == "" ==>
        && lastLoadedMes == "" && !dirty && ingreso == Blank && inversion == Blank
        && ganadoInversion == Blank && conceptosMontos == map[]
      ensures value != old(mes) && value == old(lastLoadedMes) ==>
        && ingreso == old(ingreso) && inversion == old(inversion) && ganadoInversion == old(ganadoInversion)
        && dirty == old(dirty) && lastLoadedMes == old(lastLoadedMes)
        && conceptosMontos == (if value == "" then old(conceptosMontos)
                               else Reconciled(old(conceptosMontos), reales, conceptos, value))
      ensures value == old(mes) ==>
        ingreso == old(ingreso) && inversion == old(inversion) && ganadoInversion == old(ganadoInversion)
        && dirty == old(dirty) && conceptosMontos == old(conceptosMontos) && lastLoadedMes == old(lastLoadedMes)
    {
      if value == mes {
        return;
      }
      SetMes(value);
      LoadMonthEffect(conceptos);
      ReconcileEffect(conceptos);
      ReconciledIdempotent(map[], reales, conceptos, mes);
    }

    /** A parent that keeps the form mounted replacing the `reales` prop.
        Both effects depend on it and run in declaration order; an identical
        prop triggers neither. When the selected month is the one already
        loaded, the ref guard keeps the general fields and `dirty` as they
        were, so they keep showing the old store's values; only the concept
        amounts are reconciled. */
    method StoreChanged(store: Store, conceptos: seq<Concepto>)
      modifies this`reales, this`lastLoadedMes, this`ingreso, this`inversion, this`ganadoInversion,
               this`conceptosMontos, this`dirty
      ensures reales == store
      ensures store == old(reales) ==>
        && ingreso == old(ingreso) && inversion == old(inversion) && ganadoInversion == old(ganadoInversion)
        && dirty == old(dirty) && conceptosMontos == old(conceptosMontos) && lastLoadedMes == old(lastLoadedMes)
      ensures store != old(reales) && old(mes == lastLoadedMes) ==>
        && ingreso == old(ingreso) && inversion == old(inversion) && ganadoInversion == old(ganadoInversion)
        && dirty == old(dirty) && lastLoadedMes == old(lastLoadedMes)
        && conceptosMontos == (if mes == "" then old(conceptosMontos)
                               else Reconciled(old(conceptosMontos), store, conceptos, mes))
      ensures store != old(reales) && old(mes != lastLoadedMes) ==> lastLoadedMes == mes && !dirty
      ensures store != old(reales) && old(mes != lastLoadedMes) && mes == "" ==>
        ingreso == Blank && inversion == Blank && ganadoInversion == Blank && conceptosMontos == map[]
      ensures store != old(reales) && old(mes != lastLoadedMes) && mes != "" ==>
        && ingreso == LoadedAmount(store, "ingreso", mes)
        && inversion == LoadedAmount(store, "inversion", mes)
        && ganadoInversion == LoadedAmount(store, "ganadoInversion", mes)
        && conceptosMontos == LoadedMontos(store, conceptos, mes)
    {
      // Compared by value where React compares by identity; see the same
      // guard in `EstimadosForm.StoreChanged`.
      if store == reales {
        return;
      }
      reales := store;
      LoadMonthEffect(conceptos);
      ReconcileEffect(conceptos);
      ReconciledIdempotent(map[], store, conceptos, mes);
    }

    /** `handleConceptoMonto`: set one concept's amount and mark the form dirty. */
    method HandleConceptoMonto(nombre: string, monto: Amount)
      modifies this`conceptosMontos, this`dirty
      ensures conceptosMontos == old(conceptosMontos)[nombre := monto] && dirty
    {
      conceptosMontos := conceptosMontos[nombre := monto];
      dirty := true;
    }

    /** `handleGeneralChange(setter)`: set the field and mark the form dirty.
        The general inputs are disabled while a save is in flight. */
    method HandleGeneralChange(field: GeneralField, value: Amount)
      modifies this`ingreso, this`inversion, this`ganadoInversion, this`dirty
      requires !guardando
      ensures dirty && SaveEnabled()
      ensures ingreso == (if field == Ingreso then value else old(ingreso))
      ensures inversion == (if field == Inversion then value else old(inversion))
      ensures ganadoInversion == (if field == GanadoInversion then value else old(ganadoInversion))
    {
      match field {
        case Ingreso => ingreso := value;
        case Inversion => inversion := value;
        case GanadoInversion => ganadoInversion := value;
      }
      dirty := true;
    }

    /** `guardarReal` up to its `await`: without a month nothing happens;
        otherwise `guardando` is raised, which disables the save button, and
        the record to hand to `setReales` is built. */
    method BeginSave(conceptos: seq<Concepto>) returns (pending: Option<Store>)
      modifies this`guardando
      ensures mes == "" ==> pending == None && guardando == old(guardando)
      ensures mes != "" ==> guardando && !SaveEnabled()
      ensures mes != "" ==>
        pending == Some(SavedReales(reales, ingreso, inversion, ganadoInversion, conceptos, conceptosMontos, mes))
    {
      if mes == "" {
        return None;
      }
      guardando := true;
      var mes, montos := this.mes, this.conceptosMontos;
      var nuevos := reales["ingreso" := Entry(ingreso, mes)]["inversion" := Entry(inversion, mes)]
                          ["ganadoInversion" := Entry(ganadoInversion, mes)];
      SpreadThree(reales, "ingreso", ingreso, "inversion", inversion, "ganadoInversion", ganadoInversion, mes);
      nuevos := WriteConcepts(nuevos, conceptos, montos, mes);
      pending := Some(nuevos);
    }

    /** The rest of `guardarReal`: when the setter accepts the record it
        replaces the store and the form is clean; when it throws, the store
        and `dirty` stay; `guardando` drops in both cases (`finally`). */
    method FinishSave(pending: Store, accepted: bool)
      modifies this`reales, this`dirty, this`guardando
      ensures !guardando && SaveEnabled() == dirty
      ensures accepted ==> reales == pending && !dirty
      ensures !accepted ==> reales == old(reales) && dirty == old(dirty)
    {
      if accepted {
        reales := pending;
        dirty := false;
      }
      guardando := false;
    }

    /** `guardarReal` as a whole, the setter's outcome given as `accepted`. */
    method GuardarReal(conceptos: seq<Concepto>, accepted: bool)
      modifies this`reales, this`dirty, this`guardando
      ensures old(mes) == "" ==>
        reales == old(reales) && dirty == old(dirty) && guardando == old(guardando)
      ensures old(mes) != "" ==> !guardando
      ensures old(mes) != "" && accepted ==>
        (!dirty && reales == SavedReales(old(reales), ingreso, inversion, ganadoInversion, conceptos,
                                         conceptosMontos, mes))
      ensures old(mes) != "" && !accepted ==> reales == old(reales) && dirty == old(dirty)
    {
      var pending := BeginSave(conceptos);
      if pending.Some? {
        FinishSave(pending.value, accepted);
      }
    }
  }
}
