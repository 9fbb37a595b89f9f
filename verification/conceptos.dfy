/**
 * The concept-list editor (`src/components/Conceptos.jsx`): a text input
 * `nuevo` and the list of expense concepts, which the panel replaces
 * through `setConceptos` when a concept is added or removed.
 */
module Conceptos {

  /** An expense category, identified only by its name. */
  datatype Concepto = Concepto(nombre: string)

  /** The characters `String.prototype.trim` removes: ECMAScript WhiteSpace
      (tab, vertical tab, form feed, space, no-break space, the byte order
      mark and the Unicode space separators) and LineTerminator. */
  predicate IsJsWhitespace(c: char)
  {
    c == '\t' || c == '\n' || c == '\U{B}' || c == '\U{C}' || c == '\r' ||
    c == ' ' || c == '\U{A0}' || c == '\U{1680}' ||
    ('\U{2000}' <= c <= '\U{200A}') ||
    c == '\U{2028}' || c == '\U{2029}' || c == '\U{202F}' || c == '\U{205F}' ||
    c == '\U{3000}' || c == '\U{FEFF}'
  }

  /** True when the input holds nothing but whitespace (or nothing at all). */
  predicate IsBlank(s: string)
  {
    forall i :: 0 <= i < |s| ==> IsJsWhitespace(s[i])
  }

  function TrimStart(s: string): (r: string)
    ensures |r| <= |s|
    ensures r == [] || !IsJsWhitespace(r[0])
  {
    if s != [] && IsJsWhitespace(s[0]) then TrimStart(s[1..]) else s
  }

  function TrimEnd(s: string): (r: string)
    ensures |r| <= |s|
    ensures r == [] || !IsJsWhitespace(r[|r| - 1])
  {
    if s != [] && IsJsWhitespace(s[|s| - 1]) then TrimEnd(s[..|s| - 1]) else s
  }

  /** `s.trim()` */
  function Trim(s: string): string
  {
    TrimEnd(TrimStart(s))
  }

  lemma {:induction false} TrimStartEmpty(s: string)
    ensures TrimStart(s) == [] <==> IsBlank(s)
  {
    if s != [] && IsJsWhitespace(s[0]) {
      TrimStartEmpty(s[1..]);
      assert IsBlank(s[1..]) ==> IsBlank(s) by {
        if IsBlank(s[1..]) {
          forall i | 0 <= i < |s| ensures IsJsWhitespace(s[i]) {
            if i > 0 { assert s[i] == s[1..][i - 1]; }
          }
        }
      }
    }
  }

  lemma {:induction false} TrimEndEmpty(s: string)
    ensures TrimEnd(s) == [] <==> IsBlank(s)
  {
    if s != [] && IsJsWhitespace(s[|s| - 1]) {
      var p := s[..|s| - 1];
      TrimEndEmpty(p);
      assert IsBlank(p) ==> IsBlank(s) by {
        if IsBlank(p) {
          forall i | 0 <= i < |s| ensures IsJsWhitespace(s[i]) {
            if i < |s| - 1 { assert s[i] == p[i]; }
          }
        }
      }
    }
  }

  /** `nuevo.trim()` is falsy exactly when `nuevo` is blank. */
  lemma TrimEmptyIffBlank(s: string)
    ensures Trim(s) == [] <==> IsBlank(s)
  {
    TrimStartEmpty(s);
    var t := TrimStart(s);
    TrimEndEmpty(t);
    if t != [] {
      assert !IsJsWhitespace(t[0]);
    }
  }

  /** The list `agregarConcepto` hands to `setConceptos`, or the unchanged
      list when the guard `nuevo.trim()` fails. */
  function Agregado(conceptos: seq<Concepto>, nuevo: string): seq<Concepto>
  {
    if Trim(nuevo) != [] then conceptos + [Concepto(nuevo)] else conceptos
  }

  /** `conceptos.filter(c => c.nombre !== nombre)` */
  function Eliminado(conceptos: seq<Concepto>, nombre: string): (r: seq<Concepto>)
    ensures |r| <= |conceptos|
    ensures forall c :: c in r <==> c in conceptos && c.nombre != nombre
  {
    if conceptos == [] then []
    else (if conceptos[0].nombre != nombre then [conceptos[0]] else [])
         + Eliminado(conceptos[1..], nombre)
  }

  /** Adding a blank input leaves the list as it was; adding anything else
      appends exactly one concept carrying the untrimmed input, even when a
      concept of that name already exists. */
  lemma AgregadoSpec(conceptos: seq<Concepto>, nuevo: string)
    ensures IsBlank(nuevo) ==> Agregado(conceptos, nuevo) == conceptos
    ensures !IsBlank(nuevo) ==>
      var r := Agregado(conceptos, nuevo);
      |r| == |conceptos| + 1 && r[..|conceptos|] == conceptos && r[|conceptos|] == Concepto(nuevo)
  {
    TrimEmptyIffBlank(nuevo);
    if !IsBlank(nuevo) {
      assert (conceptos + [Concepto(nuevo)])[..|conceptos|] == conceptos;
    }
  }

  /** Filtering distributes over concatenation: the concepts that stay keep
      their relative order. */
  lemma {:induction false} EliminadoConcat(a: seq<Concepto>, b: seq<Concepto>, nombre: string)
    ensures Eliminado(a + b, nombre) == Eliminado(a, nombre) + Eliminado(b, nombre)
  {
    if a != [] {
      assert (a + b)[1..] == a[1..] + b;
      EliminadoConcat(a[1..], b, nombre);
    } else {
      assert a + b == b;
    }
  }

  /** Every concept of another name survives as often as it occurred; the
      removed name is gone. */
  lemma {:induction false} EliminadoCounts(conceptos: seq<Concepto>, nombre: string, c: Concepto)
    ensures multiset(Eliminado(conceptos, nombre))[c] ==
      if c.nombre == nombre then 0 else multiset(conceptos)[c]
  {
    if conceptos != [] {
      var h, t := conceptos[0], conceptos[1..];
      EliminadoCounts(t, nombre, c);
      var kept := if h.nombre != nombre then [h] else [];
      assert Eliminado(conceptos, nombre) == kept + Eliminado(t, nombre);
      assert multiset(Eliminado(conceptos, nombre)) == multiset(kept) + multiset(Eliminado(t, nombre));
      assert conceptos == [h] + t;
      assert multiset(conceptos) == multiset{h} + multiset(t);
    }
  }

  /** Removing a name that is not in the list changes nothing. */
  lemma {:induction false} EliminadoAbsent(conceptos: seq<Concepto>, nombre: string)
    requires forall i :: 0 <= i < |conceptos| ==> conceptos[i].nombre != nombre
    ensures Eliminado(conceptos, nombre) == conceptos
  {
    if conceptos != [] {
      EliminadoAbsent(conceptos[1..], nombre);
      assert conceptos == [conceptos[0]] + conceptos[1..];
    }
  }

  /** Removal is idempotent. */
  lemma EliminadoIdempotent(conceptos: seq<Concepto>, nombre: string)
    ensures Eliminado(Eliminado(conceptos, nombre), nombre) == Eliminado(conceptos, nombre)
  {
    var r := Eliminado(conceptos, nombre);
    assert forall i :: 0 <= i < |r| ==> r[i] in r;
    EliminadoAbsent(r, nombre);
  }

  /** The panel's state: the concept list it edits and the text input. */
  class ConceptosPanel {
    var conceptos: seq<Concepto>
    var nuevo: string

    constructor (conceptos: seq<Concepto>)
      ensures this.conceptos == conceptos && nuevo == ""
    {
      this.conceptos := conceptos;
      nuevo := "";
    }

    /** The input's `onChange`. */
    method SetNuevo(value: string)
      modifies this`nuevo
      ensures nuevo == value
    {
      nuevo := value;
    }

    /** `agregarConcepto`: a blank input changes nothing; otherwise the
        untrimmed input is appended and the input is cleared. */
    method AgregarConcepto()
      modifies this
      ensures conceptos == Agregado(old(conceptos), old(nuevo))
      ensures IsBlank(old(nuevo)) ==> conceptos == old(conceptos) && nuevo == old(nuevo)
      ensures !IsBlank(old(nuevo)) ==>
        conceptos == old(conceptos) + [Concepto(old(nuevo))] && nuevo == ""
    {
      TrimEmptyIffBlank(nuevo);
      if Trim(nuevo) != [] {
        conceptos := conceptos + [Concepto(nuevo)];
        nuevo := "";
      }
    }

    /** `eliminarConcepto(nombre)`; the input is left alone. */
    method EliminarConcepto(nombre: string)
      modifies this`conceptos
      ensures conceptos == Eliminado(old(conceptos), nombre)
      ensures forall c :: c in conceptos ==> c.nombre != nombre
    {
      conceptos := Eliminado(conceptos, nombre);
    }
  }
}
