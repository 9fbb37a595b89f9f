/**
 * What the two entry forms (`Estimados.jsx` and `Reales.jsx`) share: the
 * flat store they read and write, keyed by `ingreso`, `inversion`,
 * `ganadoInversion` and the concept names, each entry `{monto, mes}`
 * remembering the month it was saved for; and the maps their month-load
 * effect, concept-reconcile effect and save handler compute.
 */
module Forms {
  import opened Amounts
  import opened Conceptos

  /** One stored field, `{ monto, mes }`. */
  datatype Entry = Entry(monto: Amount, mes: string)

  type Store = map<string, Entry>

  /** `Number(store[key]?.monto || 0)`: a missing key counts as zero. */
  function StoredValue(store: Store, key: string): real
  {
    if key in store then Value(store[key].monto) else 0.0
  }

  function Names(conceptos: seq<Concepto>): set<string>
  {
    set c | c in conceptos :: c.nombre
  }

  lemma NamesSnoc(conceptos: seq<Concepto>, c: Concepto)
    ensures Names(conceptos + [c]) == Names(conceptos) + {c.nombre}
  {
    var both := conceptos + [c];
    assert forall x :: x in both <==> x in conceptos || x == c;
  }

  /** `(store[key]?.mes === mes) ? (store[key].monto || '') : ''` */
  function LoadedAmount(store: Store, key: string, mes: string): Amount
  {
    if key in store && store[key].mes == mes then store[key].monto else Blank
  }

  /** The amount map the month-load effect builds: one key per concept, the
      stored amount when it was saved for this month, else blank. */
  function LoadedMontos(store: Store, conceptos: seq<Concepto>, mes: string): map<string, Amount>
  {
    map n | n in Names(conceptos) :: LoadedAmount(store, n, mes)
  }

  /** The first pass of the reconcile effect: concepts missing from `prev`
      are added with their stored amount for this month, or blank. */
  function AddMissing(prev: map<string, Amount>, store: Store, conceptos: seq<Concepto>, mes: string)
    : map<string, Amount>
  {
    map n | n in prev.Keys + Names(conceptos) ::
      if n in prev then prev[n] else LoadedAmount(store, n, mes)
  }

  /** The amount map after the reconcile effect: exactly the concept names,
      earlier entries kept, new ones loaded. */
  function Reconciled(prev: map<string, Amount>, store: Store, conceptos: seq<Concepto>, mes: string)
    : map<string, Amount>
  {
    map n | n in Names(conceptos) :: if n in prev then prev[n] else LoadedAmount(store, n, mes)
  }

  /** `conceptosMontos[nombre] || ''` */
  function MontoOf(montos: map<string, Amount>, nombre: string): Amount
  {
    if nombre in montos then montos[nombre] else Blank
  }

  /** The save handler's concept loop over `base`: every concept key is
      overwritten by `{ monto, mes }`. */
  function WithConcepts(base: Store, conceptos: seq<Concepto>, montos: map<string, Amount>, mes: string)
    : Store
  {
    base + map n | n in Names(conceptos) :: Entry(MontoOf(montos, n), mes)
  }

  /** The record a save hands to the setter: the old store, then the general
      fields, then the concept keys, each stamped with the month. */
  function Saved(store: Store, general: map<string, Amount>, conceptos: seq<Concepto>,
                 montos: map<string, Amount>, mes: string): Store
  {
    WithConcepts(store + Stamped(general, mes), conceptos, montos, mes)
  }

  /** The general fields as stored entries, `{ monto, mes }`. */
  function Stamped(general: map<string, Amount>, mes: string): Store
  {
    map k | k in general :: Entry(general[k], mes)
  }

  /** The value an amount input shows:
      `conceptosMontos[nombre] ?? store[nombre]?.monto ?? ''`. */
  function ShownMonto(montos: map<string, Amount>, store: Store, nombre: string): Amount
  {
    if nombre in montos then montos[nombre]
    else if nombre in store then store[nombre].monto
    else Blank
  }

  /** After reconciling, the amount map holds exactly the concept names, keeps
      what was typed for concepts that remain, and loads the rest. */
  lemma ReconciledSpec(prev: map<string, Amount>, store: Store, conceptos: seq<Concepto>, mes: string)
    ensures var r := Reconciled(prev, store, conceptos, mes);
      && r.Keys == Names(conceptos)
      && (forall n :: n in prev && n in Names(conceptos) ==> r[n] == prev[n])
      && (forall n :: n !in prev && n in Names(conceptos) ==> r[n] == LoadedAmount(store, n, mes))
      && (forall i :: 0 <= i < |conceptos| ==> ShownMonto(r, store, conceptos[i].nombre) == r[conceptos[i].nombre])
  {
    var r := Reconciled(prev, store, conceptos, mes);
    forall i | 0 <= i < |conceptos|
      ensures ShownMonto(r, store, conceptos[i].nombre) == r[conceptos[i].nombre]
    {
      assert conceptos[i] in conceptos;
    }
  }

  /** Reconciling twice is reconciling once, and reconciling right after a
      month load changes nothing. */
  lemma ReconciledIdempotent(prev: map<string, Amount>, store: Store, conceptos: seq<Concepto>, mes: string)
    ensures var r := Reconciled(prev, store, conceptos, mes);
      Reconciled(r, store, conceptos, mes) == r
    ensures Reconciled(LoadedMontos(store, conceptos, mes), store, conceptos, mes)
         == LoadedMontos(store, conceptos, mes)
  {
  }

  /** Saving overwrites the general fields and every concept key with the
      form's values stamped with the month (a concept missing from the
      amount map is saved blank) and leaves every other key alone. A concept
      that shares its name with a general field wins over it. */
  lemma SavedSpec(store: Store, general: map<string, Amount>, conceptos: seq<Concepto>,
                  montos: map<string, Amount>, mes: string)
    ensures var r := Saved(store, general, conceptos, montos, mes);
      && r.Keys == store.Keys + general.Keys + Names(conceptos)
      && (forall k :: k in store && k !in general && k !in Names(conceptos) ==> r[k] == store[k])
      && (forall k :: k in general && k !in Names(conceptos) ==> r[k] == Entry(general[k], mes))
      && (forall i :: 0 <= i < |conceptos| ==>
            r[conceptos[i].nombre] == Entry(MontoOf(montos, conceptos[i].nombre), mes))
  {
    var r := Saved(store, general, conceptos, montos, mes);
    forall i | 0 <= i < |conceptos|
      ensures r[conceptos[i].nombre] == Entry(MontoOf(montos, conceptos[i].nombre), mes)
    {
      assert conceptos[i] in conceptos;
    }
  }

  lemma LoadedMontosSnoc(store: Store, conceptos: seq<Concepto>, c: Concepto, mes: string)
    ensures LoadedMontos(store, conceptos + [c], mes)
         == LoadedMontos(store, conceptos, mes)[c.nombre := LoadedAmount(store, c.nombre, mes)]
  {
    NamesSnoc(conceptos, c);
  }

  lemma AddMissingSnoc(prev: map<string, Amount>, store: Store, conceptos: seq<Concepto>,
                       c: Concepto, mes: string)
    ensures var before := AddMissing(prev, store, conceptos, mes);
      AddMissing(prev, store, conceptos + [c], mes)
        == if c.nombre in before then before
           else before[c.nombre := LoadedAmount(store, c.nombre, mes)]
  {
    NamesSnoc(conceptos, c);
  }

  lemma WithConceptsSnoc(base: Store, conceptos: seq<Concepto>, c: Concepto,
                         montos: map<string, Amount>, mes: string)
    ensures WithConcepts(base, conceptos + [c], montos, mes)
         == WithConcepts(base, conceptos, montos, mes)[c.nombre := Entry(MontoOf(montos, c.nombre), mes)]
  {
    var lhs := WithConcepts(base, conceptos + [c], montos, mes);
    var rhs := WithConcepts(base, conceptos, montos, mes)[c.nombre := Entry(MontoOf(montos, c.nombre), mes)];
    NamesSnoc(conceptos, c);
    assert lhs.Keys == rhs.Keys;
    forall k | k in lhs ensures lhs[k] == rhs[k] {
      if k != c.nombre && k !in Names(conceptos) {
        assert k !in Names(conceptos + [c]);
      }
    }
  }

  /** The second pass of the reconcile effect: once the stale keys are
      deleted from the first pass's map, what is left is `Reconciled`. */
  lemma DeletedStale(updated: map<string, Amount>, prev: map<string, Amount>, store: Store,
                     conceptos: seq<Concepto>, mes: string)
    requires forall k :: k in updated <==> k in AddMissing(prev, store, conceptos, mes) && k in Names(conceptos)
    requires forall k :: k in updated ==> updated[k] == AddMissing(prev, store, conceptos, mes)[k]
    ensures updated == Reconciled(prev, store, conceptos, mes)
  {
    var r := Reconciled(prev, store, conceptos, mes);
    assert updated.Keys == r.Keys;
  }

  /** `{ ...store, a: { monto: x, mes }, b: { monto: y, mes } }` */
  lemma SpreadTwo(store: Store, a: string, x: Amount, b: string, y: Amount, mes: string)
    requires a != b
    ensures store[a := Entry(x, mes)][b := Entry(y, mes)] == store + Stamped(map[a := x, b := y], mes)
  {
    var lhs := store[a := Entry(x, mes)][b := Entry(y, mes)];
    var rhs := store + Stamped(map[a := x, b := y], mes);
    assert lhs.Keys == rhs.Keys;
  }

  /** `{ ...store, a: { monto: x, mes }, b: { monto: y, mes }, c: { monto: z, mes } }` */
  lemma SpreadThree(store: Store, a: string, x: Amount, b: string, y: Amount, c: string, z: Amount,
                    mes: string)
    requires a != b && b != c && a != c
    ensures store[a := Entry(x, mes)][b := Entry(y, mes)][c := Entry(z, mes)]
         == store + Stamped(map[a := x, b := y, c := z], mes)
  {
    var lhs := store[a := Entry(x, mes)][b := Entry(y, mes)][c := Entry(z, mes)];
    var rhs := store + Stamped(map[a := x, b := y, c := z], mes);
    assert lhs.Keys == rhs.Keys;
  }

  /** The month-load effect's loop: `conceptos.forEach(c => { montos[c.nombre] = ... })`. */
  method LoadMontos(store: Store, conceptos: seq<Concepto>, mes: string)
    returns (montos: map<string, Amount>)
    ensures montos == LoadedMontos(store, conceptos, mes)
  {
    montos := map[];
    var i := 0;
    while i < |conceptos|
      invariant 0 <= i <= |conceptos|
      invariant montos == LoadedMontos(store, conceptos[..i], mes)
    {
      var c := conceptos[i];
      LoadedMontosSnoc(store, conceptos[..i], c, mes);
      assert conceptos[..i + 1] == conceptos[..i] + [c];
      montos := montos[c.nombre := LoadedAmount(store, c.nombre, mes)];
      i := i + 1;
    }
    assert conceptos[..i] == conceptos;
  }

  /** The reconcile effect's updater: copy `prev`, add the concepts it lacks,
      then delete every key that names no concept. */
  method ReconcileMontos(prev: map<string, Amount>, store: Store, conceptos: seq<Concepto>, mes: string)
    returns (updated: map<string, Amount>)
    ensures updated == Reconciled(prev, store, conceptos, mes)
  {
    updated := prev;
    var i := 0;
    while i < |conceptos|
      invariant 0 <= i <= |conceptos|
      invariant updated == AddMissing(prev, store, conceptos[..i], mes)
    {
      var c := conceptos[i];
      AddMissingSnoc(prev, store, conceptos[..i], c, mes);
      assert conceptos[..i + 1] == conceptos[..i] + [c];
      if c.nombre !in updated {
        updated := updated[c.nombre := LoadedAmount(store, c.nombre, mes)];
      }
      i := i + 1;
    }
    assert conceptos[..i] == conceptos;
    ghost var added := updated;
    var names := Names(conceptos);
    var keys := updated.Keys;
    while keys != {}
      invariant keys <= added.Keys
      invariant forall k :: k in updated <==> k in added && (k in keys || k in names)
      invariant forall k :: k in updated ==> updated[k] == added[k]
      decreases keys
    {
      var nombre :| nombre in keys;
      if nombre !in names {
        updated := updated - {nombre};
      }
      keys := keys - {nombre};
    }
    DeletedStale(updated, prev, store, conceptos, mes);
  }

  /** The save handler's loop:
      `conceptos.forEach(c => { nuevos[c.nombre] = { monto: conceptosMontos[c.nombre] || '', mes } })`. */
  method WriteConcepts(base: Store, conceptos: seq<Concepto>, montos: map<string, Amount>, mes: string)
    returns (nuevos: Store)
    ensures nuevos == WithConcepts(base, conceptos, montos, mes)
  {
    nuevos := base;
    var i := 0;
    while i < |conceptos|
      invariant 0 <= i <= |conceptos|
      invariant nuevos == WithConcepts(base, conceptos[..i], montos, mes)
    {
      var c := conceptos[i];
      WithConceptsSnoc(base, conceptos[..i], c, montos, mes);
      assert conceptos[..i + 1] == conceptos[..i] + [c];
      nuevos := nuevos[c.nombre := Entry(MontoOf(montos, c.nombre), mes)];
      i := i + 1;
    }
    assert conceptos[..i] == conceptos;
  }
}
