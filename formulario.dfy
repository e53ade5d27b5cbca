/** The registration form: the next identifier, the registration label,
    the payload it assembles from the widgets and the submit sequence that
    labels and validates it. */
module Formulario {
  import opened Common
  import opened InquilinoSchema

  // ---------------------------------------------------------------------
  // The next identifier
  // ---------------------------------------------------------------------

  /** A stored document, as the database returns it. */
  type Doc = map<string, Value>

  /** `doc.get("id_inquilino", 0)` */
  function IdCell(doc: Doc): Value
  {
    if "id_inquilino" in doc then doc["id_inquilino"] else Int(0)
  }

  /** Every document's identifier survives `int(...)`. */
  predicate IdsReadable(datos: seq<Doc>)
  {
    forall k :: 0 <= k < |datos| ==> PyIntOf(IdCell(datos[k])).Some?
  }

  function IdOf(doc: Doc): int
    requires PyIntOf(IdCell(doc)).Some?
  {
    PyIntOf(IdCell(doc)).value
  }

  /** `max(int(doc.get("id_inquilino", 0)) for doc in datos)` */
  function MaxId(datos: seq<Doc>): (m: int)
    requires datos != [] && IdsReadable(datos)
    ensures forall k :: 0 <= k < |datos| ==> IdOf(datos[k]) <= m
    ensures exists k :: 0 <= k < |datos| && IdOf(datos[k]) == m
    decreases |datos|
  {
    if |datos| == 1 then IdOf(datos[0])
    else
      var rest := MaxId(datos[1..]);
      assert forall k :: 1 <= k < |datos| ==> datos[k] == datos[1..][k - 1];
      if IdOf(datos[0]) >= rest then IdOf(datos[0]) else rest
  }

  /** The fallback when reading fails: `int(time()) % 1_000_000 or 1`. */
  function FallbackId(now: nat): (id: int)
    ensures 1 <= id < 1000000
  {
    if now % 1000000 == 0 then 1 else now % 1000000
  }

  /** `_generar_id_automatico`, with the read of the collection as `datos`
      (`None` when it raises) and the clock as `now`. */
  function GenerarIdAutomatico(datos: Option<seq<Doc>>, now: nat): (id: int)
    ensures datos == Some([]) ==> id == 1
    ensures datos.Some? && datos.value != [] && IdsReadable(datos.value) ==>
      (forall k :: 0 <= k < |datos.value| ==> IdOf(datos.value[k]) < id)
      && (exists k :: 0 <= k < |datos.value| && IdOf(datos.value[k]) == id - 1)
    ensures datos.None? || !IdsReadable(datos.value) ==> id == FallbackId(now)
  {
    match datos
    case None => FallbackId(now)
    case Some(ds) =>
      if ds == [] then 1
      else if IdsReadable(ds) then MaxId(ds) + 1
      else FallbackId(now)
  }

  /** When the stored identifiers are not negative, as the schema keeps
      them, the next identifier is one the schema accepts and is new. */
  lemma NextIdFresh(datos: Option<seq<Doc>>, now: nat)
    requires datos.Some? ==> IdsReadable(datos.value)
    requires datos.Some? ==> forall k :: 0 <= k < |datos.value| ==> IdOf(datos.value[k]) >= 0
    ensures GenerarIdAutomatico(datos, now) >= 1
    ensures datos.Some? ==> forall k :: 0 <= k < |datos.value| ==> IdOf(datos.value[k]) != GenerarIdAutomatico(datos, now)
  {
    if datos.Some? && datos.value != [] {
      var ds := datos.value;
      assert IdOf(ds[0]) >= 0 && IdOf(ds[0]) < GenerarIdAutomatico(datos, now);
    }
  }

  /** The identifier of a document without the key counts as 0. */
  lemma MissingIdCountsZero(doc: Doc)
    requires "id_inquilino" !in doc
    ensures PyIntOf(IdCell(doc)) == Some(0)
  {
  }

  // ---------------------------------------------------------------------
  // The registration label
  // ---------------------------------------------------------------------

  /** One point per condition, each `d.get(key) == value` with exact,
      case-sensitive equality; a missing key or a value of another type
      scores nothing. */
  function FormScore(d: Record): (n: nat)
    ensures n <= 5
  {
    Point(d.fumador == Some(Str("no"))) + Point(d.orden == Some(Str("ordenada")))
    + Point(d.mascotas == Some(Str("sin mascotas"))) + Point(d.deporte == Some(Str("si")))
    + Point(d.bioritmo == Some(Str("madrugador")))
  }

  function FormLabel(d: Record): (y: int)
    ensures y == 0 || y == 1
    ensures y == 1 <==> FormScore(d) >= 3
  {
    if FormScore(d) >= 3 then 1 else 0
  }

  /** `_calcular_compatible_regla_simple`, accumulating `puntaje`. */
  method CalcularCompatibleReglaSimple(d: Record) returns (y: int)
    ensures y == FormLabel(d)
    ensures y == 0 || y == 1
  {
    var puntaje := 0;
    puntaje := puntaje + (if d.fumador == Some(Str("no")) then 1 else 0);
    assert puntaje == Point(d.fumador == Some(Str("no")));
    puntaje := puntaje + (if d.orden == Some(Str("ordenada")) then 1 else 0);
    puntaje := puntaje + (if d.mascotas == Some(Str("sin mascotas")) then 1 else 0);
    puntaje := puntaje + (if d.deporte == Some(Str("si")) then 1 else 0);
    puntaje := puntaje + (if d.bioritmo == Some(Str("madrugador")) then 1 else 0);
    y := if puntaje >= 3 then 1 else 0;
  }

  /** On a record carrying all five keys as strings the registration rule
      and the demo generator's rule give the same label. */
  lemma RulesAgree(d: Record)
    requires d.fumador.Some? && d.fumador.value.Str? && d.orden.Some? && d.orden.value.Str?
    requires d.mascotas.Some? && d.mascotas.value.Str? && d.deporte.Some? && d.deporte.value.Str?
    requires d.bioritmo.Some? && d.bioritmo.value.Str?
    ensures FormLabel(d) == DemoLabel(d.fumador.value.s, d.orden.value.s, d.mascotas.value.s,
      d.deporte.value.s, d.bioritmo.value.s)
  {
    assert FormScore(d) == DemoScore(d.fumador.value.s, d.orden.value.s, d.mascotas.value.s,
      d.deporte.value.s, d.bioritmo.value.s);
  }

  /** In particular the registration rule gives every demo record the label
      the generator put on it. */
  lemma DemoLabelAgrees(id: int, nombre: string, d: DemoDraw)
    ensures FormLabel(DemoBase(id, nombre, d)) == DemoDrawLabel(d)
  {
    RulesAgree(DemoBase(id, nombre, d));
  }

  /** A record lacking the five keys is labelled 0. */
  lemma MissingKeysScoreNothing(d: Record)
    requires d.fumador.None? && d.orden.None? && d.mascotas.None? && d.deporte.None? && d.bioritmo.None?
    ensures FormLabel(d) == 0
  {
  }

  /** The comparisons are case-sensitive: capitalised answers score
      nothing. */
  lemma CapitalisedScoresNothing(d: Record)
    requires d.fumador == Some(Str("No")) && d.orden == Some(Str("Ordenada"))
    requires d.mascotas == Some(Str("Sin mascotas")) && d.deporte == Some(Str("Si"))
    requires d.bioritmo == Some(Str("Madrugador"))
    ensures FormLabel(d) == 0
  {
  }

  // ---------------------------------------------------------------------
  // The payload
  // ---------------------------------------------------------------------

  /** What the widgets hold when the form is submitted. */
  datatype Form = Form(
    nombre: string, cedula: string, edad: int, genero: string, fumador: string,
    mascotas: string, orden: string, deporte: string, bioritmo: string,
    nivelEducativo: string, musicaTipo: string, planPerfecto: string, visitas: string,
    personalidad: string, instrumento: string)

  /** `text or None` */
  function OrNone(s: string): (v: Value)
    ensures v == Null <==> s == []
    ensures v != Null ==> v == Str(s)
  {
    if s == [] then Null else Str(s)
  }

  /** `int(cedula) if cedula else None` does not raise. */
  predicate CedulaOk(cedula: string)
  {
    cedula == [] || PyInt(cedula).Some?
  }

  /** The payload's declared fields; `cedula` is not a field of the
      schema, which ignores it, and the `created_at` timestamp the form
      stamps (a schema field whose default is the clock) is left out. */
  function Payload(form: Form, id: int): (d: Record)
    ensures d.compatible.None?
  {
    Record(
      Some(Int(id)), Some(Str(form.nombre)), Some(Int(form.edad)),
      Some(Str(form.genero)), Some(Str(form.fumador)), Some(Str(form.mascotas)),
      Some(Str(form.orden)), Some(Str(form.deporte)), Some(Str(form.bioritmo)),
      Some(OrNone(form.nivelEducativo)), Some(OrNone(form.musicaTipo)),
      Some(OrNone(form.planPerfecto)), Some(Str(form.visitas)),
      Some(OrNone(form.personalidad)), Some(Str(form.instrumento)),
      None)
  }

  /** The payload with the label computed from it. */
  function Labelled(form: Form, id: int): (d: Record)
    ensures d.compatible == Some(Int(FormLabel(Payload(form, id))))
  {
    Payload(form, id).(compatible := Some(Int(FormLabel(Payload(form, id)))))
  }

  /** The label depends only on the five answers, not on the identifier or
      the free-text fields. */
  lemma LabelIndependentOfRest(form: Form, other: Form, id: int, id': int)
    requires form.fumador == other.fumador && form.orden == other.orden
    requires form.mascotas == other.mascotas && form.deporte == other.deporte
    requires form.bioritmo == other.bioritmo
    ensures FormLabel(Payload(form, id)) == FormLabel(Payload(other, id'))
  {
  }

  // ---------------------------------------------------------------------
  // Submitting the form
  // ---------------------------------------------------------------------

  datatype Registro =
    | Registrado(tenant: Inquilino)
    | Rechazado(fields: seq<Field>)
    | CedulaInvalida

  /** The submit branch of `mostrar_formulario_registro`: the identifier,
      the payload, its label, then validation. The insert and the messages
      are not modelled; a registered record is the one inserted. */
  method RegistrarInquilino(form: Form, datos: Option<seq<Doc>>, now: nat) returns (r: Registro)
    ensures !CedulaOk(form.cedula) ==> r == CedulaInvalida
    ensures CedulaOk(form.cedula) ==>
      (r.Registrado? <==> Validate(Labelled(form, GenerarIdAutomatico(datos, now))).Valid?)
    ensures r.Registrado? ==> r.tenant == Validate(Labelled(form, GenerarIdAutomatico(datos, now))).tenant
    ensures r.Registrado? ==> r.tenant.compatible == FormLabel(Payload(form, GenerarIdAutomatico(datos, now)))
    ensures r.Rechazado? ==> r.fields == Validate(Labelled(form, GenerarIdAutomatico(datos, now))).fields
  {
    var nuevoId := GenerarIdAutomatico(datos, now);
    if !CedulaOk(form.cedula) {
      return CedulaInvalida;
    }
    var payload := Payload(form, nuevoId);
    var compatible := CalcularCompatibleReglaSimple(payload);
    payload := payload.(compatible := Some(Int(compatible)));
    assert payload == Labelled(form, nuevoId);
    var v := Validate(payload);
    if v.Valid? {
      ValidCompatible(payload, compatible);
      r := Registrado(v.tenant);
    } else {
      r := Rechazado(v.fields);
    }
  }

  /** The slider allows ages 0..100; outside 18..70 the schema rejects the
      age. */
  lemma AgeOutsideRangeRejected(form: Form, id: int)
    requires !(18 <= form.edad <= 70)
    ensures Validate(Labelled(form, id)).Invalid?
    ensures Edad in Validate(Labelled(form, id)).fields
  {
    var d := Labelled(form, id);
    assert !FieldOk(d, Edad);
    InvalidFields(d, Edad);
  }

  /** Empty optional text is stored as absent, and non-empty text as
      given. */
  lemma EmptyOptionalsAbsent(form: Form, id: int)
    requires Validate(Labelled(form, id)).Valid?
    ensures Validate(Labelled(form, id)).tenant.nivelEducativo == Entered(form.nivelEducativo)
    ensures Validate(Labelled(form, id)).tenant.musicaTipo == Entered(form.musicaTipo)
    ensures Validate(Labelled(form, id)).tenant.planPerfecto == Entered(form.planPerfecto)
    ensures Validate(Labelled(form, id)).tenant.personalidad == Entered(form.personalidad)
  {
    var d := Labelled(form, id);
    LabelledOptionals(form, id);
    ValidOptionals(d);
    EnteredCell(d, NivelEducativo, form.nivelEducativo);
    EnteredCell(d, MusicaTipo, form.musicaTipo);
    EnteredCell(d, PlanPerfecto, form.planPerfecto);
    EnteredCell(d, Personalidad, form.personalidad);
  }

  /** What an optional text widget contributes to the stored record. */
  function Entered(s: string): (r: Option<string>)
    ensures r.None? <==> s == []
    ensures r.Some? ==> r.value == s
  {
    if s == [] then None else Some(s)
  }

  lemma LabelledOptionals(form: Form, id: int)
    ensures Cell(Labelled(form, id), NivelEducativo) == Some(OrNone(form.nivelEducativo))
    ensures Cell(Labelled(form, id), MusicaTipo) == Some(OrNone(form.musicaTipo))
    ensures Cell(Labelled(form, id), PlanPerfecto) == Some(OrNone(form.planPerfecto))
    ensures Cell(Labelled(form, id), Personalidad) == Some(OrNone(form.personalidad))
  {
  }

  lemma EnteredCell(d: Record, f: Field, s: string)
    requires Cell(d, f) == Some(OrNone(s))
    ensures StrField(d, f) == Entered(s)
  {
  }

  /** The widgets offer only values the schema accepts. */
  predicate WidgetsOk(form: Form)
  {
    form.genero in Generos && form.fumador in SiNo && form.mascotas in MascotasOpciones
    && form.orden in OrdenOpciones && form.deporte in SiNo && form.bioritmo in BioritmoOpciones
    && (form.nivelEducativo == [] || form.nivelEducativo in Niveles)
    && form.visitas in SiNo && form.instrumento in SiNo
  }

  /** With the widgets' values, a name of 2..50 characters, an age in
      18..70, a positive identifier and a music entry that is empty or has
      three characters, the record is registered. */
  lemma FormAccepted(form: Form, id: int)
    requires WidgetsOk(form) && id > 0 && 2 <= |form.nombre| <= 50 && 18 <= form.edad <= 70
    requires form.musicaTipo == [] || |form.musicaTipo| >= 3
    ensures Validate(Labelled(form, id)).Valid?
  {
    var d := Labelled(form, id);
    if form.nivelEducativo != [] {
      LowerUnchanged(form.nivelEducativo);
    }
    forall f: Field
      ensures FieldOk(d, f)
    {
    }
  }
}
