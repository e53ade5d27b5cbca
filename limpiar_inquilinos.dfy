/** The maintenance script that fills the default for every missing or
    null-like field of the stored residents and counts what it changed.
    The collection is a sequence of documents; `update_one` with `$set` is
    the map update `doc + cambios`. */
module LimpiarInquilinos {
  import opened Common

  /** A stored document. */
  type Doc = map<string, Value>

  /** `DEFAULTS`, in its insertion order. */
  const Defaults: seq<(string, string)> := [
    ("fumador", "no"),
    ("mascotas", "sin mascotas"),
    ("orden", "desordenada"),
    ("deporte", "no"),
    ("bioritmo", "madrugador"),
    ("visitas", "no"),
    ("personalidad", "indefinido"),
    ("nivel_educativo", "indefinido"),
    ("musica_tipo", "indefinido"),
    ("plan_perfecto", "indefinido"),
    ("instrumento", "no"),
    ("rol", "inquilino")]

  /** `v in (None, "", "null", "None")` */
  predicate NullLike(v: Value)
  {
    v == Null || v == Str("") || v == Str("null") || v == Str("None")
  }

  /** `campo not in inq or inq[campo] in (None, "", "null", "None")` */
  predicate Faltante(doc: Doc, campo: string)
  {
    campo !in doc || NullLike(doc[campo])
  }

  /** No default value is itself a null marker. */
  predicate NotNullDefaults(ds: seq<(string, string)>)
  {
    forall i :: 0 <= i < |ds| ==> !NullLike(Str(ds[i].1))
  }

  lemma DefaultsNotNull()
    ensures |Defaults| == 12 && NotNullDefaults(Defaults)
  {
    forall i | 0 <= i < |Defaults|
      ensures !NullLike(Str(Defaults[i].1))
    {
      var d := Defaults[i].1;
      assert |d| != 0 && |d| != 4 by {
        if i == 0 || i == 3 || i == 5 || i == 10 {
          assert d == "no";
        } else if i == 1 {
          assert d == "sin mascotas";
        } else if i == 2 {
          assert d == "desordenada";
        } else if i == 4 {
          assert d == "madrugador";
        } else if i == 11 {
          assert d == "inquilino";
        } else {
          assert d == "indefinido";
        }
      }
    }
  }

  /** Whether `k` is one of the first `n` fields of `ds`. */
  predicate Among(ds: seq<(string, string)>, n: nat, k: string)
    requires n <= |ds|
  {
    n > 0 && (ds[n - 1].0 == k || Among(ds, n - 1, k))
  }

  lemma {:induction false} AmongIndex(ds: seq<(string, string)>, n: nat, i: nat)
    requires i < n <= |ds|
    ensures Among(ds, n, ds[i].0)
  {
    if i < n - 1 {
      AmongIndex(ds, n - 1, i);
    }
  }

  lemma {:induction false} AmongWitness(ds: seq<(string, string)>, n: nat, k: string) returns (i: nat)
    requires n <= |ds| && Among(ds, n, k)
    ensures i < n && ds[i].0 == k
  {
    if ds[n - 1].0 == k {
      i := n - 1;
    } else {
      i := AmongWitness(ds, n - 1, k);
    }
  }

  /** `cambios` after the first `n` defaults of `ds`. */
  function CambiosHasta(doc: Doc, ds: seq<(string, string)>, n: nat): (c: map<string, Value>)
    requires n <= |ds| && NotNullDefaults(ds)
    ensures forall k :: k in c <==> Among(ds, n, k) && Faltante(doc, k)
    ensures forall k :: k in c ==> !NullLike(c[k])
  {
    if n == 0 then map[]
    else
      var prev := CambiosHasta(doc, ds, n - 1);
      var campo, valor := ds[n - 1].0, ds[n - 1].1;
      if Faltante(doc, campo) then prev[campo := Str(valor)] else prev
  }

  /** Each default adds at most one field. */
  lemma {:induction false} CambiosSize(doc: Doc, ds: seq<(string, string)>, n: nat)
    requires n <= |ds| && NotNullDefaults(ds)
    ensures |CambiosHasta(doc, ds, n).Keys| <= n
  {
    if n > 0 {
      CambiosSize(doc, ds, n - 1);
      var prev := CambiosHasta(doc, ds, n - 1);
      var k := ds[n - 1].0;
      assert prev[k := Str(ds[n - 1].1)].Keys == prev.Keys + {k};
    }
  }

  /** `cambios` for one document. */
  function Cambios(doc: Doc): (c: map<string, Value>)
    ensures |c.Keys| <= 12
    ensures forall k :: k in c <==> Among(Defaults, 12, k) && Faltante(doc, k)
    ensures forall k :: k in c ==> !NullLike(c[k])
  {
    DefaultsNotNull();
    CambiosSize(doc, Defaults, |Defaults|);
    CambiosHasta(doc, Defaults, |Defaults|)
  }

  /** A field gets its default exactly when it is absent or null-like. */
  lemma ChangedIff(doc: Doc, i: nat)
    requires i < |Defaults|
    ensures Defaults[i].0 in Cambios(doc) <==> Faltante(doc, Defaults[i].0)
  {
    DefaultsNotNull();
    AmongIndex(Defaults, 12, i);
  }

  /** The loop over `DEFAULTS` for one document. */
  method CalcularCambios(doc: Doc) returns (cambios: map<string, Value>)
    ensures cambios == Cambios(doc)
  {
    DefaultsNotNull();
    cambios := CambiosCon(doc, Defaults);
  }

  /** The same loop over any table of defaults. */
  method CambiosCon(doc: Doc, ds: seq<(string, string)>) returns (cambios: map<string, Value>)
    requires NotNullDefaults(ds)
    ensures cambios == CambiosHasta(doc, ds, |ds|)
  {
    cambios := map[];
    var n := 0;
    while n < |ds|
      invariant n <= |ds|
      invariant cambios == CambiosHasta(doc, ds, n)
    {
      var campo, valor := ds[n].0, ds[n].1;
      CambiosStep(doc, ds, n);
      if campo !in doc || NullLike(doc[campo]) {
        cambios := cambios[campo := Str(valor)];
      }
      n := n + 1;
    }
  }

  lemma CambiosStep(doc: Doc, ds: seq<(string, string)>, n: nat)
    requires n < |ds| && NotNullDefaults(ds)
    ensures CambiosHasta(doc, ds, n + 1) ==
      if Faltante(doc, ds[n].0) then CambiosHasta(doc, ds, n)[ds[n].0 := Str(ds[n].1)] else CambiosHasta(doc, ds, n)
  {
  }

  /** The document after `{"$set": cambios}`. */
  function Limpio(doc: Doc): Doc
  {
    doc + Cambios(doc)
  }

  /** Cleaning removes no field and adds only default fields. */
  lemma CleanedKeys(doc: Doc, k: string)
    ensures k in doc ==> k in Limpio(doc)
    ensures k in Limpio(doc) && k !in doc ==> exists i :: 0 <= i < |Defaults| && Defaults[i].0 == k
  {
    if k in Limpio(doc) && k !in doc {
      DefaultsNotNull();
      var i := AmongWitness(Defaults, 12, k);
    }
  }

  /** Only the computed changes are written: fields outside the defaults,
      and default fields holding a real value, keep their value. */
  lemma NothingElseChanges(doc: Doc, k: string)
    requires k in doc && !Faltante(doc, k)
    ensures Limpio(doc)[k] == doc[k]
  {
  }

  /** After cleaning, every default field is present and not null-like. */
  lemma CleanedComplete(doc: Doc, i: nat)
    requires i < |Defaults|
    ensures Defaults[i].0 in Limpio(doc) && !NullLike(Limpio(doc)[Defaults[i].0])
  {
    ChangedIff(doc, i);
  }

  /** A second pass finds nothing to change. */
  lemma Idempotent(doc: Doc)
    ensures Cambios(Limpio(doc)) == map[]
    ensures Limpio(Limpio(doc)) == Limpio(doc)
  {
    var c := Cambios(Limpio(doc));
    forall k | k in c
      ensures false
    {
      DefaultsNotNull();
      var i := AmongWitness(Defaults, 12, k);
      CleanedComplete(doc, i);
    }
    assert c.Keys == {};
    assert Limpio(doc) + map[] == Limpio(doc);
  }

  /** `actualizados` over a list of documents. */
  function Actualizados(docs: seq<Doc>): (n: nat)
    ensures n <= |docs|
  {
    if docs == [] then 0
    else Actualizados(docs[..|docs| - 1]) + (if Cambios(docs[|docs| - 1]) != map[] then 1 else 0)
  }

  /** `total_campos_corregidos` over a list of documents. */
  function TotalCampos(docs: seq<Doc>): nat
  {
    if docs == [] then 0
    else TotalCampos(docs[..|docs| - 1]) + |Cambios(docs[|docs| - 1]).Keys|
  }

  /** One document more adds its own change to each counter. */
  lemma CountersStep(docs: seq<Doc>, n: nat)
    requires n < |docs|
    ensures Actualizados(docs[..n + 1]) == Actualizados(docs[..n]) + (if Cambios(docs[n]) != map[] then 1 else 0)
    ensures TotalCampos(docs[..n + 1]) == TotalCampos(docs[..n]) + |Cambios(docs[n]).Keys|
  {
    assert docs[..n + 1][..n] == docs[..n];
  }

  /** A document without changes is left as it is. */
  lemma Unchanged(doc: Doc)
    requires Cambios(doc) == map[]
    ensures Limpio(doc) == doc
  {
    assert doc + map[] == doc;
  }

  /** Every updated document has between one and twelve corrected fields. */
  lemma {:induction false} CountersBounds(docs: seq<Doc>)
    ensures Actualizados(docs) <= TotalCampos(docs) <= 12 * Actualizados(docs)
  {
    if docs != [] {
      CountersBounds(docs[..|docs| - 1]);
      var c := Cambios(docs[|docs| - 1]);
      if c != map[] {
        var k :| k in c;
        assert k in c.Keys;
      } else {
        assert c.Keys == {};
      }
    }
  }

  /** Every document of the list, cleaned. */
  function Limpiados(docs: seq<Doc>): (r: seq<Doc>)
    ensures |r| == |docs| && forall i :: 0 <= i < |docs| ==> r[i] == Limpio(docs[i])
  {
    seq(|docs|, i requires 0 <= i < |docs| => Limpio(docs[i]))
  }

  /** A second run of the script updates nothing. */
  lemma {:induction false} SecondRunUpdatesNothing(docs: seq<Doc>)
    ensures Actualizados(Limpiados(docs)) == 0 && TotalCampos(Limpiados(docs)) == 0
    ensures Limpiados(Limpiados(docs)) == Limpiados(docs)
    decreases |docs|
  {
    if docs != [] {
      var init := docs[..|docs| - 1];
      SecondRunUpdatesNothing(init);
      assert Limpiados(docs)[..|docs| - 1] == Limpiados(init);
      Idempotent(docs[|docs| - 1]);
      forall i | 0 <= i < |docs|
        ensures Limpiados(Limpiados(docs))[i] == Limpiados(docs)[i]
      {
        Idempotent(docs[i]);
      }
    }
  }

  /** The stored collection. */
  class Coleccion {
    var inquilinos: seq<Doc>

    constructor (docs: seq<Doc>)
      ensures inquilinos == docs
    {
      inquilinos := docs;
    }

    /** `limpiar_inquilinos`: each document of the snapshot gets its
        changes, and the counters add up the updated documents and the
        corrected fields. */
    method Limpiar() returns (actualizados: nat, total: nat)
      modifies this
      ensures inquilinos == Limpiados(old(inquilinos))
      ensures actualizados == Actualizados(old(inquilinos)) && total == TotalCampos(old(inquilinos))
    {
      var snapshot := inquilinos;
      actualizados, total := 0, 0;
      var n := 0;
      while n < |snapshot|
        invariant n <= |snapshot| && |inquilinos| == |snapshot|
        invariant forall i :: 0 <= i < |snapshot| ==> inquilinos[i] == if i < n then Limpio(snapshot[i]) else snapshot[i]
        invariant actualizados == Actualizados(snapshot[..n]) && total == TotalCampos(snapshot[..n])
      {
        var inq := snapshot[n];
        var cambios := CalcularCambios(inq);
        CountersStep(snapshot, n);
        if cambios != map[] {
          inquilinos := inquilinos[n := inq + cambios];
          actualizados := actualizados + 1;
          total := total + |cambios.Keys|;
        } else {
          Unchanged(inq);
        }
        n := n + 1;
      }
      assert snapshot[..n] == snapshot;
      assert inquilinos == Limpiados(snapshot);
    }
  }
}
