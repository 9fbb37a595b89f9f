/**
 * The estimates entry form (`src/components/Estimados.jsx`): the selected
 * month, the estimated income and investment, one amount per concept, and
 * the `dirty` / `guardando` flags that gate the save button. React effects
 * and handlers become methods; the `estimados` prop is a field that the
 * setter replaces.
 */
module Estimados {
  import opened Amounts
  import opened Conceptos
  import opened Forms

  /** The general fields `handleGeneralChange` is curried over. */
  datatype GeneralField = Ingreso | Inversion

  /** The record `guardarEstimado` builds from the form. */
  function SavedEstimados(estimados: Store, ingreso: Amount, inversion: Amount,
                          conceptos: seq<Concepto>, montos: map<string, Amount>, mes: string): Store
  {
    Saved(estimados, map["ingreso" := ingreso, "inversion" := inversion], conceptos, montos, mes)
  }

  class EstimadosForm {
    var mes: string
    var ingreso: Amount
    var inversion: Amount
    var conceptosMontos: map<string, Amount>
    var dirty: bool
    var guardando: bool
    /** The `lastLoadedMes` ref. */
    var lastLoadedMes: string
    /** The `estimados` prop; `setEstimados` replaces it. */
    var estimados: Store

    constructor (estimados: Store)
      ensures mes == "" && ingreso == Blank && inversion == Blank && conceptosMontos == map[]
      ensures !dirty && !guardando && lastLoadedMes == "" && this.estimados == estimados
    {
      mes, ingreso, inversion, conceptosMontos := "", Blank, Blank, map[];
      dirty, guardando, lastLoadedMes := false, false, "";
      this.estimados := estimados;
    }

    /** `disabled={!dirty || guardando}` on the save button, negated. */
    predicate SaveEnabled()
      reads this
    {
      dirty && !guardando
    }

    /** The month input's `onChange`. */
    method SetMes(value: string)
      modifies this`mes
      ensures mes == value
    {
      mes := value;
    }

    /** The effect on `[mes, estimados]`: unless the month is the one last
        loaded, clear the form (no month) or load the stored values saved for
        this month; either way the form is clean afterwards. */
    method LoadMonthEffect(conceptos: seq<Concepto>)
      modifies this`lastLoadedMes, this`ingreso, this`inversion, this`conceptosMontos, this`dirty
      ensures old(mes == lastLoadedMes) ==>
        lastLoadedMes == old(lastLoadedMes) && ingreso == old(ingreso) && inversion == old(inversion)
        && conceptosMontos == old(conceptosMontos) && dirty == old(dirty)
      ensures old(mes != lastLoadedMes) ==> lastLoadedMes == mes && !dirty
      ensures old(mes != lastLoadedMes) && mes == "" ==>
        ingreso == Blank && inversion == Blank && conceptosMontos == map[]
      ensures old(mes != lastLoadedMes) && mes != "" ==>
        && ingreso == LoadedAmount(estimados, "ingreso", mes)
        && inversion == LoadedAmount(estimados, "inversion", mes)
        && conceptosMontos == LoadedMontos(estimados, conceptos, mes)
    {
      var mes, estimados := this.mes, this.estimados;
      if mes == lastLoadedMes {
        return;
      }
      lastLoadedMes := mes;
      if mes == "" {
        ingreso, inversion, conceptosMontos, dirty := Blank, Blank, map[], false;
        return;
      }
      var newIngreso := LoadedAmount(estimados, "ingreso", mes);
      var newInversion := LoadedAmount(estimados, "inversion", mes);
      var montos := LoadMontos(estimados, conceptos, mes);
      ingreso, inversion, conceptosMontos, dirty := newIngreso, newInversion, montos, false;
    }

    /** The effect on `[conceptos, mes, estimados]`: with a month selected,
        add the concepts the amount map lacks and delete the keys of removed
        concepts; without one, do nothing. */
    method ReconcileEffect(conceptos: seq<Concepto>)
      modifies this`conceptosMontos
      ensures mes == "" ==> conceptosMontos == old(conceptosMontos)
      ensures mes != "" ==> conceptosMontos == Reconciled(old(conceptosMontos), estimados, conceptos, mes)
    {
      var mes, estimados, prev := this.mes, this.estimados, this.conceptosMontos;
      if mes == "" {
        return;
      }
      var updated := ReconcileMontos(prev, estimados, conceptos, mes);
      conceptosMontos := updated;
    }

    /** Picking a month in the input: an unchanged value causes no render;
        otherwise React re-renders and runs the month-load effect and then the
        reconcile effect, in declaration order. */
    method SelectMonth(value: string, conceptos: seq<Concepto>)
      modifies this`mes, this`lastLoadedMes, this`ingreso, this`inversion, this`conceptosMontos, this`dirty
      ensures mes == value
      ensures value != old(mes) && value != old(lastLoadedMes) && value != "" ==>
        && lastLoadedMes == value && !dirty
        && ingreso == LoadedAmount(estimados, "ingreso", value)
        && inversion == LoadedAmount(estimados, "inversion", value)
        && conceptosMontos == LoadedMontos(estimados, conceptos, value)
      ensures value != old(mes) && value != old(lastLoadedMes) && value == "" ==>
        lastLoadedMes == "" && !dirty && ingreso == Blank && inversion == Blank && conceptosMontos == map[]
      ensures value != old(mes) && value == old(lastLoadedMes) ==>
        && ingreso == old(ingreso) && inversion == old(inversion) && dirty == old(dirty)
        && lastLoadedMes == old(lastLoadedMes)
        && conceptosMontos == (if value == "" then old(conceptosMontos)
                               else Reconciled(old(conceptosMontos), estimados, conceptos, value))
      ensures value == old(mes) ==>
        ingreso == old(ingreso) && inversion == old(inversion) && dirty == old(dirty)
        && conceptosMontos == old(conceptosMontos) && lastLoadedMes == old(lastLoadedMes)
    {
      if value == mes {
        return;
      }
      SetMes(value);
      LoadMonthEffect(conceptos);
      ReconcileEffect(conceptos);
      ReconciledIdempotent(map[], estimados, conceptos, mes);
    }

    /** A parent that keeps the form mounted replacing the `estimados` prop.
        Both effects depend on it and run in declaration order; an identical
        prop triggers neither. When the selected month is the one already
        loaded, the ref guard keeps the general fields and `dirty` as they
        were, so they keep showing the old store's values; only the concept
        amounts are reconciled. */
    method StoreChanged(store: Store, conceptos: seq<Concepto>)
      modifies this`estimados, this`lastLoadedMes, this`ingreso, this`inversion, this`conceptosMontos, this`dirty
      ensures estimados == store
      ensures store == old(estimados) ==>
        && ingreso == old(ingreso) && inversion == old(inversion) && dirty == old(dirty)
        && conceptosMontos == old(conceptosMontos) && lastLoadedMes == old(lastLoadedMes)
      ensures store != old(estimados) && old(mes == lastLoadedMes) ==>
        && ingreso == old(ingreso) && inversion == old(inversion) && dirty == old(dirty)
        && lastLoadedMes == old(lastLoadedMes)
        && conceptosMontos == (if mes == "" then old(conceptosMontos)
                               else Reconciled(old(conceptosMontos), store, conceptos, mes))
      ensures store != old(estimados) && old(mes != lastLoadedMes) ==> lastLoadedMes == mes && !dirty
      ensures store != old(estimados) && old(mes != lastLoadedMes) && mes == "" ==>
        ingreso == Blank && inversion == Blank && conceptosMontos == map[]
      ensures store != old(estimados) && old(mes != lastLoadedMes) && mes != "" ==>
        && ingreso == LoadedAmount(store, "ingreso", mes)
        && inversion == LoadedAmount(store, "inversion", mes)
        && conceptosMontos == LoadedMontos(store, conceptos, mes)
    {
      // React compares the prop by identity, the model by value: a new object
      // with the same contents re-runs both effects, but in any reachable
      // state the amount map's keys are already the concept names, so the
      // reconcile then changes nothing either.
      if store == estimados {
        return;
      }
      estimados := store;
      LoadMonthEffect(conceptos);
      ReconcileEffect(conceptos);
      ReconciledIdempotent(map[], store, conceptos, mes);
    }

    /** `handleConceptoMonto`: set one concept's amount and mark the form dirty. */
    method HandleConceptoMonto(nombre: string, monto: Amount)
      modifies this`conceptosMontos, this`dirty
      ensures conceptosMontos == old(conceptosMontos)[nombre := monto] && dirty
    {
      conceptosMontos := conceptosMontos[nombre := monto];
      dirty := true;
    }

    /** `handleGeneralChange(setter)`: set the field and mark the form dirty.
        The general inputs are disabled while a save is in flight. */
    method HandleGeneralChange(field: GeneralField, value: Amount)
      modifies this`ingreso, this`inversion, this`dirty
      requires !guardando
      ensures dirty && SaveEnabled()
      ensures ingreso == (if field == Ingreso then value else old(ingreso))
      ensures inversion == (if field == Inversion then value else old(inversion))
    {
      match field {
        case Ingreso => ingreso := value;
        case Inversion => inversion := value;
      }
      dirty := true;
    }

    /** `guardarEstimado` up to its `await`: without a month nothing happens;
        otherwise `guardando` is raised, which disables the save button, and
        the record to hand to `setEstimados` is built. */
    method BeginSave(conceptos: seq<Concepto>) returns (pending: Option<Store>)
      modifies this`guardando
      ensures mes == "" ==> pending == None && guardando == old(guardando)
      ensures mes != "" ==> guardando && !SaveEnabled()
      ensures mes != "" ==>
        pending == Some(SavedEstimados(estimados, ingreso, inversion, conceptos, conceptosMontos, mes))
    {
      if mes == "" {
        return None;
      }
      guardando := true;
      var mes, montos := this.mes, this.conceptosMontos;
      var nuevos := estimados["ingreso" := Entry(ingreso, mes)]["inversion" := Entry(inversion, mes)];
      SpreadTwo(estimados, "ingreso", ingreso, "inversion", inversion, mes);
      nuevos := WriteConcepts(nuevos, conceptos, montos, mes);
      pending := Some(nuevos);
    }

    /** The rest of `guardarEstimado`: when the setter accepts the record it
        replaces the store and the form is clean; when it throws, the store
        and `dirty` stay; `guardando` drops in both cases (`finally`). */
    method FinishSave(pending: Store, accepted: bool)
      modifies this`estimados, this`dirty, this`guardando
      ensures !guardando && SaveEnabled() == dirty
      ensures accepted ==> estimados == pending && !dirty
      ensures !accepted ==> estimados == old(estimados) && dirty == old(dirty)
    {
      if accepted {
        estimados := pending;
        dirty := false;
      }
      guardando := false;
    }

    /** `guardarEstimado` as a whole, the setter's outcome given as `accepted`. */
    method GuardarEstimado(conceptos: seq<Concepto>, accepted: bool)
      modifies this`estimados, this`dirty, this`guardando
      ensures old(mes) == "" ==>
        estimados == old(estimados) && dirty == old(dirty) && guardando == old(guardando)
      ensures old(mes) != "" ==> !guardando
      ensures old(mes) != "" && accepted ==>
        (!dirty && estimados == SavedEstimados(old(estimados), ingreso, inversion, conceptos, conceptosMontos, mes))
      ensures old(mes) != "" && !accepted ==> estimados == old(estimados) && dirty == old(dirty)
    {
      var pending := BeginSave(conceptos);
      if pending.Some? {
        FinishSave(pending.value, accepted);
      }
    }
  }
}
