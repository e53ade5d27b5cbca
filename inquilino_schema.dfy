/** The resident record schema (a pydantic model) as a validity predicate
    over the dictionary handed to it, the normalisation its validators
    apply, and the demo-record generator with its compatibility rule. */
module InquilinoSchema {
  import opened Common

  /** The keyword arguments `Inquilino(**d)` receives: the value given for
      each declared field, `None` for a key the dictionary lacks (pydantic
      ignores keys the schema does not declare). */
  datatype Record = Record(
    idInquilino: Option<Value>,
    nombre: Option<Value>,
    edad: Option<Value>,
    genero: Option<Value>,
    fumador: Option<Value>,
    mascotas: Option<Value>,
    orden: Option<Value>,
    deporte: Option<Value>,
    bioritmo: Option<Value>,
    nivelEducativo: Option<Value>,
    musicaTipo: Option<Value>,
    planPerfecto: Option<Value>,
    visitas: Option<Value>,
    personalidad: Option<Value>,
    instrumento: Option<Value>,
    compatible: Option<Value>)

  /** A record that passed validation, as `.dict()` returns it (without the
      creation timestamp). */
  datatype Inquilino = Inquilino(
    idInquilino: int,
    nombre: string,
    edad: int,
    genero: string,
    fumador: string,
    mascotas: string,
    orden: string,
    deporte: string,
    bioritmo: string,
    nivelEducativo: Option<string>,
    musicaTipo: Option<string>,
    planPerfecto: Option<string>,
    visitas: Option<string>,
    personalidad: Option<string>,
    instrumento: Option<string>,
    compatible: int)

  /** The schema's fields, in declaration order. */
  datatype Field =
    | IdInquilino | Nombre | Edad | Genero | Fumador | Mascotas | Orden | Deporte
    | Bioritmo | NivelEducativo | MusicaTipo | PlanPerfecto | Visitas | Personalidad
    | Instrumento | Compatible

  const Fields: seq<Field> := [
    IdInquilino, Nombre, Edad, Genero, Fumador, Mascotas, Orden, Deporte,
    Bioritmo, NivelEducativo, MusicaTipo, PlanPerfecto, Visitas, Personalidad,
    Instrumento, Compatible]

  /** The dictionary key of a field. */
  function Key(f: Field): string
  {
    match f
    case IdInquilino => "id_inquilino"
    case Nombre => "nombre"
    case Edad => "edad"
    case Genero => "genero"
    case Fumador => "fumador"
    case Mascotas => "mascotas"
    case Orden => "orden"
    case Deporte => "deporte"
    case Bioritmo => "bioritmo"
    case NivelEducativo => "nivel_educativo"
    case MusicaTipo => "musica_tipo"
    case PlanPerfecto => "plan_perfecto"
    case Visitas => "visitas"
    case Personalidad => "personalidad"
    case Instrumento => "instrumento"
    case Compatible => "compatible"
  }

  /** `d.get(key)` for a declared field. */
  function Cell(rec: Record, f: Field): Option<Value>
  {
    match f
    case IdInquilino => rec.idInquilino
    case Nombre => rec.nombre
    case Edad => rec.edad
    case Genero => rec.genero
    case Fumador => rec.fumador
    case Mascotas => rec.mascotas
    case Orden => rec.orden
    case Deporte => rec.deporte
    case Bioritmo => rec.bioritmo
    case NivelEducativo => rec.nivelEducativo
    case MusicaTipo => rec.musicaTipo
    case PlanPerfecto => rec.planPerfecto
    case Visitas => rec.visitas
    case Personalidad => rec.personalidad
    case Instrumento => rec.instrumento
    case Compatible => rec.compatible
  }

  lemma FieldsComplete(f: Field)
    ensures f in Fields
  {
  }

  /** The record, or every field that failed, in declaration order
      (pydantic reports all failing fields together). */
  datatype Validation = Valid(tenant: Inquilino) | Invalid(fields: seq<Field>)

  const Generos: seq<string> := ["masculino", "femenino", "otro"]
  const SiNo: seq<string> := ["si", "no"]
  const MascotasOpciones: seq<string> := ["con mascotas", "sin mascotas"]
  const OrdenOpciones: seq<string> := ["ordenada", "desordenada"]
  const BioritmoOpciones: seq<string> := ["madrugador", "nocturno"]
  const Niveles: seq<string> := ["secundaria", "universitaria", "posgrado"]

  // ---------------------------------------------------------------------
  // Field constraints
  // ---------------------------------------------------------------------

  /** An `int` field: an integer, or a string of digits pydantic coerces. */
  function IntField(rec: Record, f: Field): Option<int>
  {
    if Cell(rec, f).Some? then IntOf(Cell(rec, f).value) else None
  }

  /** A `str` field: only a string value is accepted. */
  function StrField(rec: Record, f: Field): Option<string>
  {
    if Cell(rec, f).Some? && Cell(rec, f).value.Str? then Some(Cell(rec, f).value.s) else None
  }

  /** An `Optional[str]` field: absent, `None`, or a string. */
  predicate OptionalOk(rec: Record, f: Field)
  {
    Cell(rec, f).None? || Cell(rec, f).value.Null? || Cell(rec, f).value.Str?
  }

  /** A required string fully matching one of the alternatives of its pattern. */
  predicate OneOf(rec: Record, f: Field, allowed: seq<string>)
  {
    StrField(rec, f).Some? && StrField(rec, f).value in allowed
  }

  /** An optional string that, when present, matches one of the alternatives. */
  predicate OptionalOneOf(rec: Record, f: Field, allowed: seq<string>)
  {
    OptionalOk(rec, f) && (StrField(rec, f).Some? ==> StrField(rec, f).value in allowed)
  }

  /** `validar_nivel`: an empty value passes, otherwise its lower-case form
      must be a known level. */
  predicate NivelOk(v: string)
  {
    v == "" || Lower(v) in Niveles
  }

  /** `validar_musica`: an empty value passes, otherwise at least 3 characters. */
  predicate MusicaOk(v: string)
  {
    v == "" || |v| >= 3
  }

  predicate IdOk(rec: Record)
  {
    IntField(rec, IdInquilino).Some? && IntField(rec, IdInquilino).value > 0
  }

  /** The length bounds apply to the value as given, before the validator
      strips and title-cases it. */
  predicate NombreOk(rec: Record)
  {
    StrField(rec, Nombre).Some? && 2 <= |StrField(rec, Nombre).value| <= 50
  }

  predicate EdadOk(rec: Record)
  {
    IntField(rec, Edad).Some? && 18 <= IntField(rec, Edad).value <= 70
  }

  predicate NivelFieldOk(rec: Record)
  {
    OptionalOk(rec, NivelEducativo)
    && (StrField(rec, NivelEducativo).Some? ==> NivelOk(StrField(rec, NivelEducativo).value))
  }

  predicate MusicaFieldOk(rec: Record)
  {
    OptionalOk(rec, MusicaTipo)
    && (StrField(rec, MusicaTipo).Some? ==> MusicaOk(StrField(rec, MusicaTipo).value))
  }

  predicate CompatibleOk(rec: Record)
  {
    IntField(rec, Compatible).Some? && 0 <= IntField(rec, Compatible).value <= 1
  }

  /** Whether field `f` of the record satisfies its declaration. */
  predicate FieldOk(rec: Record, f: Field)
  {
    match f
    case IdInquilino => IdOk(rec)
    case Nombre => NombreOk(rec)
    case Edad => EdadOk(rec)
    case Genero => OneOf(rec, Genero, Generos)
    case Fumador => OneOf(rec, Fumador, SiNo)
    case Mascotas => OneOf(rec, Mascotas, MascotasOpciones)
    case Orden => OneOf(rec, Orden, OrdenOpciones)
    case Deporte => OneOf(rec, Deporte, SiNo)
    case Bioritmo => OneOf(rec, Bioritmo, BioritmoOpciones)
    case NivelEducativo => NivelFieldOk(rec)
    case MusicaTipo => MusicaFieldOk(rec)
    case PlanPerfecto => OptionalOk(rec, PlanPerfecto)
    case Visitas => OptionalOneOf(rec, Visitas, SiNo)
    case Personalidad => OptionalOk(rec, Personalidad)
    case Instrumento => OptionalOneOf(rec, Instrumento, SiNo)
    case Compatible => CompatibleOk(rec)
  }

  /** Every declared field is satisfied. */
  predicate AllOk(rec: Record)
  {
    forall f: Field :: FieldOk(rec, f)
  }

  /** The fields of `fs` that fail, in the order of `fs`. (The second
      component of the measure keeps the verifier from unfolding the
      recursion over the literal field list.) */
  function Failures(rec: Record, fs: seq<Field>): (r: seq<Field>)
    ensures |r| <= |fs|
    ensures forall f :: f in r <==> f in fs && !FieldOk(rec, f)
    decreases |fs|, rec
  {
    if fs == [] then []
    else (if FieldOk(rec, fs[0]) then [] else [fs[0]]) + Failures(rec, fs[1..])
  }

  /** The failing fields, in declaration order. */
  function Errors(rec: Record): (r: seq<Field>)
    ensures |r| <= |Fields|
  {
    Failures(rec, Fields)
  }

  lemma ErrorsExact(rec: Record, f: Field)
    ensures f in Errors(rec) <==> !FieldOk(rec, f)
  {
    FieldsComplete(f);
  }

  /** No failing field is reported exactly when every field is satisfied. */
  lemma ErrorsEmpty(rec: Record)
    ensures Errors(rec) == [] <==> AllOk(rec)
  {
    if Errors(rec) == [] {
      forall f: Field
        ensures FieldOk(rec, f)
      {
        ErrorsExact(rec, f);
      }
    } else {
      var f := Errors(rec)[0];
      ErrorsExact(rec, f);
    }
  }

  /** The integer an `int` field holds once validated. */
  function IntValue(rec: Record, f: Field): int
  {
    var v := IntField(rec, f);
    if v.Some? then v.value else 0
  }

  /** The string a `str` field holds once validated. */
  function StrValue(rec: Record, f: Field): string
  {
    var v := StrField(rec, f);
    if v.Some? then v.value else ""
  }

  /** `nombre_capitalize`: the stored name is the given one stripped and
      title-cased. */
  function NormalName(raw: string): (r: string)
    ensures |r| <= 2 * |raw|
    ensures (forall k :: 0 <= k < |raw| ==> raw[k] != 'ß') ==> |r| <= |raw|
  {
    Title(Strip(raw))
  }

  /** The validated record, given its normalised name; an absent optional
      field reads `None`. */
  function Tenant(rec: Record, nombre: string): (t: Inquilino)
    ensures t.nombre == nombre
  {
    Inquilino(
      IntValue(rec, IdInquilino),
      nombre,
      IntValue(rec, Edad),
      StrValue(rec, Genero),
      StrValue(rec, Fumador),
      StrValue(rec, Mascotas),
      StrValue(rec, Orden),
      StrValue(rec, Deporte),
      StrValue(rec, Bioritmo),
      StrField(rec, NivelEducativo),
      StrField(rec, MusicaTipo),
      StrField(rec, PlanPerfecto),
      StrField(rec, Visitas),
      StrField(rec, Personalidad),
      StrField(rec, Instrumento),
      IntValue(rec, Compatible))
  }

  lemma TenantWellFormed(rec: Record, nombre: string)
    requires AllOk(rec)
    ensures WellFormed(Tenant(rec, nombre))
  {
    TenantNumbers(rec, nombre);
    TenantChoices(rec, nombre);
    TenantOptionals(rec, nombre);
  }

  lemma TenantNumbers(rec: Record, nombre: string)
    requires AllOk(rec)
    ensures NumbersOk(Tenant(rec, nombre))
  {
    assert FieldOk(rec, IdInquilino) && FieldOk(rec, Edad) && FieldOk(rec, Compatible);
  }

  lemma TenantChoices(rec: Record, nombre: string)
    requires AllOk(rec)
    ensures ChoicesOk(Tenant(rec, nombre))
  {
    assert FieldOk(rec, Genero) && FieldOk(rec, Fumador) && FieldOk(rec, Mascotas);
    assert FieldOk(rec, Orden) && FieldOk(rec, Deporte) && FieldOk(rec, Bioritmo);
  }

  lemma TenantOptionals(rec: Record, nombre: string)
    requires AllOk(rec)
    ensures OptionalsOk(Tenant(rec, nombre))
  {
    assert FieldOk(rec, NivelEducativo) && FieldOk(rec, MusicaTipo);
    assert FieldOk(rec, Visitas) && FieldOk(rec, Instrumento);
  }

  /** What a validated record guarantees about its numeric fields. */
  predicate NumbersOk(t: Inquilino)
  {
    t.idInquilino > 0 && 18 <= t.edad <= 70 && 0 <= t.compatible <= 1
  }

  /** ... about its required categorical fields. */
  predicate ChoicesOk(t: Inquilino)
  {
    t.genero in Generos && t.fumador in SiNo && t.mascotas in MascotasOpciones
    && t.orden in OrdenOpciones && t.deporte in SiNo && t.bioritmo in BioritmoOpciones
  }

  /** ... and about its constrained optional fields. */
  predicate OptionalsOk(t: Inquilino)
  {
    (t.visitas.Some? ==> t.visitas.value in SiNo)
    && (t.instrumento.Some? ==> t.instrumento.value in SiNo)
    && (t.nivelEducativo.Some? ==> NivelOk(t.nivelEducativo.value))
    && (t.musicaTipo.Some? ==> MusicaOk(t.musicaTipo.value))
  }

  /** What a validated record guarantees about its own fields. */
  predicate WellFormed(t: Inquilino)
  {
    NumbersOk(t) && ChoicesOk(t) && OptionalsOk(t)
  }

  /** `Inquilino(**rec)`: the record, or the failing fields. */
  function Validate(rec: Record): (r: Validation)
    ensures r.Valid? <==> AllOk(rec)
    ensures r.Invalid? ==> |r.fields| > 0
    ensures r.Valid? ==> WellFormed(r.tenant)
    ensures r.Valid? ==> (NombreOk(rec) && rec.nombre == Some(Str(StrValue(rec, Nombre))))
    ensures r.Valid? ==> r.tenant.nombre == NormalName(StrValue(rec, Nombre))
  {
    ErrorsEmpty(rec);
    if Errors(rec) == [] then
      var nombre := NormalName(StrValue(rec, Nombre));
      TenantWellFormed(rec, nombre);
      assert FieldOk(rec, Nombre);
      Valid(Tenant(rec, nombre))
    else Invalid(Errors(rec))
  }

  /** A valid record is the one `Tenant` builds from it. */
  lemma ValidTenant(rec: Record)
    requires Validate(rec).Valid?
    ensures Validate(rec).tenant == Tenant(rec, NormalName(StrValue(rec, Nombre)))
  {
    ErrorsEmpty(rec);
  }

  /** The numeric fields of a valid record are the values it was given. */
  lemma ValidFields(rec: Record)
    requires Validate(rec).Valid?
    ensures Validate(rec).tenant.idInquilino == IntValue(rec, IdInquilino)
    ensures Validate(rec).tenant.edad == IntValue(rec, Edad)
    ensures Validate(rec).tenant.compatible == IntValue(rec, Compatible)
  {
    ValidTenant(rec);
  }

  /** The optional text fields of a valid record are its string cells;
      anything else (absent, `None`) is stored as absent. */
  lemma ValidOptionals(rec: Record)
    requires Validate(rec).Valid?
    ensures Validate(rec).tenant.nivelEducativo == StrField(rec, NivelEducativo)
    ensures Validate(rec).tenant.musicaTipo == StrField(rec, MusicaTipo)
    ensures Validate(rec).tenant.planPerfecto == StrField(rec, PlanPerfecto)
    ensures Validate(rec).tenant.personalidad == StrField(rec, Personalidad)
  {
    ValidTenant(rec);
  }

  /** A valid record keeps the label it was given. */
  lemma ValidCompatible(rec: Record, y: int)
    requires Validate(rec).Valid? && rec.compatible == Some(Int(y))
    ensures Validate(rec).tenant.compatible == y
  {
    ValidFields(rec);
  }

  /** An invalid record is reported with exactly the fields that fail. */
  lemma InvalidFields(rec: Record, f: Field)
    requires Validate(rec).Invalid?
    ensures f in Validate(rec).fields <==> !FieldOk(rec, f)
  {
    ErrorsExact(rec, f);
    ErrorsEmpty(rec);
  }

  // ---------------------------------------------------------------------
  // The stored dictionary and its re-validation
  // ---------------------------------------------------------------------

  function OptionalCell(v: Option<string>): Value
  {
    if v.Some? then Str(v.value) else Null
  }

  /** `.dict()`: the record as it is stored, one cell per field. */
  function Stored(t: Inquilino): Record
  {
    Record(
      Some(Int(t.idInquilino)), Some(Str(t.nombre)), Some(Int(t.edad)),
      Some(Str(t.genero)), Some(Str(t.fumador)), Some(Str(t.mascotas)),
      Some(Str(t.orden)), Some(Str(t.deporte)), Some(Str(t.bioritmo)),
      Some(OptionalCell(t.nivelEducativo)), Some(OptionalCell(t.musicaTipo)),
      Some(OptionalCell(t.planPerfecto)), Some(OptionalCell(t.visitas)),
      Some(OptionalCell(t.personalidad)), Some(OptionalCell(t.instrumento)),
      Some(Int(t.compatible)))
  }

  /** Text without cased characters is title-cased to itself. */
  lemma {:induction false} TitleFromNoCase(u: string, afterCased: bool)
    requires forall k :: 0 <= k < |u| ==> !IsCased(u[k])
    ensures TitleFrom(u, afterCased) == u
    decreases |u|
  {
    if u != [] {
      TitleFromNoCase(u[1..], false);
    }
  }

  /** Title-casing passes a run of characters without case through as it
      is, and the word after the run starts with a title-cased letter. */
  lemma TitleFromUncased(p: string, u: string, q: string, afterCased: bool)
    requires u != [] && forall k :: 0 <= k < |u| ==> !IsCased(u[k])
    ensures TitleFrom(p + u + q, afterCased) == TitleFrom(p, afterCased) + u + TitleFrom(q, false)
  {
    var a := CasedAfter(p, afterCased);
    assert p + u + q == p + (u + q);
    TitleFromAppend(p, u + q, afterCased);
    TitleFromAppend(u, q, a);
    TitleFromNoCase(u, a);
    assert !IsCased(u[|u| - 1]);
    assert CasedAfter(u, a) == false;
  }

  /** A title-cased string begins with a blank only where its argument
      does. */
  lemma TitleFromFirst(s: string, afterCased: bool)
    requires s != []
    ensures TitleFrom(s, afterCased) != []
    ensures IsSpace(TitleFrom(s, afterCased)[0]) ==> IsSpace(s[0])
  {
    var m := CaseMapped(s[0], afterCased);
    assert TitleFrom(s, afterCased)[0] == m[0];
  }

  /** A title-cased string ends with a blank only where its argument does. */
  lemma TitleFromLast(s: string, afterCased: bool)
    requires s != []
    ensures TitleFrom(s, afterCased) != []
    ensures IsSpace(TitleFrom(s, afterCased)[|TitleFrom(s, afterCased)| - 1]) ==> IsSpace(s[|s| - 1])
  {
    var n := |s|;
    var c := s[n - 1];
    var m := CaseMapped(c, CasedAfter(s[..n - 1], afterCased));
    assert s == s[..n - 1] + [c];
    TitleFromAppend(s[..n - 1], [c], afterCased);
    assert TitleFrom([c], CasedAfter(s[..n - 1], afterCased)) == m + TitleFrom([], IsCased(c));
    var t := TitleFrom(s, afterCased);
    assert t == TitleFrom(s[..n - 1], afterCased) + m;
    assert t[|t| - 1] == m[|m| - 1];
  }

  /** A title-cased string begins and ends with whatever non-space its
      argument began and ended with, so stripping it again changes nothing. */
  lemma TitleStripped(s: string)
    requires s == Strip(s)
    ensures Strip(Title(s)) == Title(s)
  {
    var t := Title(s);
    if s != [] {
      TitleFromFirst(s, false);
      TitleFromLast(s, false);
      assert !IsSpace(s[0]) && !IsSpace(s[|s| - 1]);
      assert !IsSpace(t[0]) && !IsSpace(t[|t| - 1]);
      assert Leading(t) == 0;
      assert t[0..] == t;
      assert Trailing(t) == 0;
    }
  }

  /** Normalising a normalised name changes nothing. */
  lemma NormalNameIdempotent(raw: string)
    ensures NormalName(NormalName(raw)) == NormalName(raw)
  {
    var s := Strip(raw);
    StripIdempotent(raw);
    TitleStripped(s);
    TitleIdempotent(s);
  }

  /** Re-validating a stored record gives the record back, provided its
      normalised name still has the two characters the schema demands of
      the raw one. */
  lemma StoredRevalidates(t: Inquilino)
    requires WellFormed(t) && t.nombre == NormalName(t.nombre) && 2 <= |t.nombre| <= 50
    ensures Validate(Stored(t)) == Valid(t)
  {
    StoredFieldsOk(t);
    StoredTenant(t);
  }

  lemma StoredTenant(t: Inquilino)
    ensures StrValue(Stored(t), Nombre) == t.nombre
    ensures Tenant(Stored(t), t.nombre) == t
  {
    StoredNumbers(t);
    StoredChoices(t);
    StoredOptionals(t);
  }

  lemma StoredNumbers(t: Inquilino)
    ensures IntValue(Stored(t), IdInquilino) == t.idInquilino
    ensures IntValue(Stored(t), Edad) == t.edad
    ensures IntValue(Stored(t), Compatible) == t.compatible
  {
  }

  lemma StoredChoices(t: Inquilino)
    ensures StrValue(Stored(t), Nombre) == t.nombre
    ensures StrValue(Stored(t), Genero) == t.genero && StrValue(Stored(t), Fumador) == t.fumador
    ensures StrValue(Stored(t), Mascotas) == t.mascotas && StrValue(Stored(t), Orden) == t.orden
    ensures StrValue(Stored(t), Deporte) == t.deporte && StrValue(Stored(t), Bioritmo) == t.bioritmo
  {
  }

  lemma StoredOptionals(t: Inquilino)
    ensures StrField(Stored(t), NivelEducativo) == t.nivelEducativo
    ensures StrField(Stored(t), MusicaTipo) == t.musicaTipo
    ensures StrField(Stored(t), PlanPerfecto) == t.planPerfecto
    ensures StrField(Stored(t), Visitas) == t.visitas
    ensures StrField(Stored(t), Personalidad) == t.personalidad
    ensures StrField(Stored(t), Instrumento) == t.instrumento
  {
  }

  lemma StoredFieldsOk(t: Inquilino)
    requires WellFormed(t) && 2 <= |t.nombre| <= 50
    ensures AllOk(Stored(t))
  {
    var rec := Stored(t);
    forall f: Field
      ensures FieldOk(rec, f)
    {
    }
  }

  /** A name of two or more spaces passes the length check and is stored
      empty. */
  lemma BlankNameStoredEmpty(rec: Record)
    requires Validate(rec).Valid?
    requires forall i :: 0 <= i < |StrValue(rec, Nombre)| ==> IsSpace(StrValue(rec, Nombre)[i])
    ensures Validate(rec).tenant.nombre == ""
  {
    StripBlank(StrValue(rec, Nombre));
  }

  // ---------------------------------------------------------------------
  // The demo generator
  // ---------------------------------------------------------------------

  function Point(b: bool): nat
  {
    if b then 1 else 0
  }

  /** One point for each of the five conditions the rule tests. */
  function DemoScore(fumador: string, orden: string, mascotas: string, deporte: string, bioritmo: string): (n: nat)
    ensures n <= 5
  {
    Point(fumador == "no") + Point(orden == "ordenada") + Point(mascotas == "sin mascotas")
    + Point(deporte == "si") + Point(bioritmo == "madrugador")
  }

  /** `compatible`: 1 when at least three of the five conditions hold. */
  function DemoLabel(fumador: string, orden: string, mascotas: string, deporte: string, bioritmo: string): (y: int)
    ensures y == 0 || y == 1
    ensures y == 1 <==> DemoScore(fumador, orden, mascotas, deporte, bioritmo) >= 3
  {
    if DemoScore(fumador, orden, mascotas, deporte, bioritmo) >= 3 then 1 else 0
  }

  /** The most and the least favourable answers. */
  lemma DemoLabelExtremes()
    ensures DemoLabel("no", "ordenada", "sin mascotas", "si", "madrugador") == 1
    ensures DemoLabel("si", "desordenada", "con mascotas", "no", "nocturno") == 0
  {
  }

  /** Meeting one more condition never lowers the label. */
  lemma DemoLabelMonotone(fumador: string, orden: string, mascotas: string, deporte: string, bioritmo: string)
    ensures DemoLabel(fumador, orden, mascotas, deporte, bioritmo) <= DemoLabel("no", orden, mascotas, deporte, bioritmo)
    ensures DemoLabel(fumador, orden, mascotas, deporte, bioritmo) <= DemoLabel(fumador, "ordenada", mascotas, deporte, bioritmo)
    ensures DemoLabel(fumador, orden, mascotas, deporte, bioritmo) <= DemoLabel(fumador, orden, "sin mascotas", deporte, bioritmo)
    ensures DemoLabel(fumador, orden, mascotas, deporte, bioritmo) <= DemoLabel(fumador, orden, mascotas, "si", bioritmo)
    ensures DemoLabel(fumador, orden, mascotas, deporte, bioritmo) <= DemoLabel(fumador, orden, mascotas, deporte, "madrugador")
  {
  }

  /** Any three favourable answers make the pair compatible, whatever the
      other two are. */
  lemma DemoLabelThree(orden: string, mascotas: string, deporte: string, bioritmo: string)
    ensures DemoLabel("no", "ordenada", "sin mascotas", deporte, bioritmo) == 1
    ensures DemoLabel("no", orden, mascotas, "si", "madrugador") == 1
  {
  }

  const Nombres: seq<string> := ["Juan", "Ana", "Pedro", "Luisa", "Carlos", "Marta", "Felipe", "Sofía", "Andrés", "Camila"]
  const Musicas: seq<string> := ["rock", "pop", "salsa", "vallenato", "jazz"]
  const Planes: seq<string> := ["cine", "viajar", "leer", "salir con amigos"]
  const Personalidades: seq<string> := ["extrovertido", "introvertido", "neutral"]

  /** The random draws of one call: an index into each list of choices
      (taken modulo its length) and an offset for the age. */
  datatype DemoDraw = DemoDraw(
    nombre: nat, edad: nat, genero: nat, fumador: nat, mascotas: nat, orden: nat,
    deporte: nat, bioritmo: nat, nivel: nat, musica: nat, plan: nat, visitas: nat,
    personalidad: nat, instrumento: nat)

  /** `random.choice(opts)` for a given draw. */
  function Pick(opts: seq<string>, i: nat): (r: string)
    requires |opts| > 0
    ensures r in opts
  {
    opts[i % |opts|]
  }

  /** `random.randint(18, 70)` for a given draw. */
  function DemoAge(i: nat): (a: int)
    ensures 18 <= a <= 70
  {
    18 + i % 53
  }

  /** The dictionary the generator builds, before the label is added. */
  function DemoBase(id: int, nombre: string, d: DemoDraw): Record
  {
    Record(
      Some(Int(id)), Some(Str(nombre)), Some(Int(DemoAge(d.edad))),
      Some(Str(Pick(Generos, d.genero))), Some(Str(Pick(SiNo, d.fumador))),
      Some(Str(Pick(MascotasOpciones, d.mascotas))), Some(Str(Pick(OrdenOpciones, d.orden))),
      Some(Str(Pick(SiNo, d.deporte))), Some(Str(Pick(BioritmoOpciones, d.bioritmo))),
      Some(Str(Pick(Niveles, d.nivel))), Some(Str(Pick(Musicas, d.musica))),
      Some(Str(Pick(Planes, d.plan))), Some(Str(Pick(SiNo, d.visitas))),
      Some(Str(Pick(Personalidades, d.personalidad))), Some(Str(Pick(SiNo, d.instrumento))),
      None)
  }

  /** The label the rule gives a draw. */
  function DemoDrawLabel(d: DemoDraw): (y: int)
    ensures y == 0 || y == 1
  {
    DemoLabel(Pick(SiNo, d.fumador), Pick(OrdenOpciones, d.orden), Pick(MascotasOpciones, d.mascotas),
      Pick(SiNo, d.deporte), Pick(BioritmoOpciones, d.bioritmo))
  }

  /** The complete dictionary handed to the schema, with the drawn name
      and label `y`. */
  function DemoRecord(id: int, nombre: string, d: DemoDraw, y: int): Record
  {
    DemoBase(id, nombre, d).(compatible := Some(Int(y)))
  }

  /** The score of `generar_inquilino_demo`, accumulated one condition at
      a time over the dictionary it built. */
  method DemoPuntaje(rec: Record) returns (puntaje: nat)
    ensures puntaje == Point(rec.fumador == Some(Str("no"))) + Point(rec.orden == Some(Str("ordenada")))
      + Point(rec.mascotas == Some(Str("sin mascotas"))) + Point(rec.deporte == Some(Str("si")))
      + Point(rec.bioritmo == Some(Str("madrugador")))
  {
    puntaje := 0;
    if rec.fumador == Some(Str("no")) {
      puntaje := puntaje + 1;
    }
    if rec.orden == Some(Str("ordenada")) {
      puntaje := puntaje + 1;
    }
    if rec.mascotas == Some(Str("sin mascotas")) {
      puntaje := puntaje + 1;
    }
    if rec.deporte == Some(Str("si")) {
      puntaje := puntaje + 1;
    }
    if rec.bioritmo == Some(Str("madrugador")) {
      puntaje := puntaje + 1;
    }
  }

  /** `generar_inquilino_demo` with the identifier `uuid % 1000000`. */
  method GenerarInquilinoDemo(uuid: nat, d: DemoDraw) returns (r: Validation)
    ensures r == Validate(DemoRecord(uuid % 1000000, Pick(Nombres, d.nombre), d, DemoDrawLabel(d)))
    ensures r.Valid? <==> uuid % 1000000 != 0
    ensures r.Valid? ==> r.tenant.compatible == DemoDrawLabel(d)
    ensures r.Invalid? ==> forall f :: f in r.fields <==> f == IdInquilino
  {
    var rec := DemoBase(uuid % 1000000, Pick(Nombres, d.nombre), d);
    var puntaje := DemoPuntaje(rec);
    rec := rec.(compatible := Some(Int(if puntaje >= 3 then 1 else 0)));
    assert rec == DemoRecord(uuid % 1000000, Pick(Nombres, d.nombre), d, DemoDrawLabel(d));
    r := Validate(rec);
    DemoNameOk(d);
    DemoOutcome(uuid % 1000000, Pick(Nombres, d.nombre), d, DemoDrawLabel(d));
  }

  /** A demo record is valid exactly when its identifier is positive, and
      then carries its label; otherwise the identifier alone fails. */
  lemma DemoOutcome(id: int, nombre: string, d: DemoDraw, y: int)
    requires 2 <= |nombre| <= 50 && (y == 0 || y == 1)
    ensures Validate(DemoRecord(id, nombre, d, y)).Valid? <==> id > 0
    ensures Validate(DemoRecord(id, nombre, d, y)).Valid? ==> Validate(DemoRecord(id, nombre, d, y)).tenant.compatible == y
    ensures Validate(DemoRecord(id, nombre, d, y)).Invalid? ==>
      forall f :: f in Validate(DemoRecord(id, nombre, d, y)).fields <==> f == IdInquilino
  {
    if id > 0 {
      DemoValid(id, nombre, d, y);
    } else {
      DemoOnlyId(id, nombre, d, y);
    }
  }

  lemma DemoValid(id: int, nombre: string, d: DemoDraw, y: int)
    requires id > 0 && 2 <= |nombre| <= 50 && (y == 0 || y == 1)
    ensures Validate(DemoRecord(id, nombre, d, y)).Valid?
    ensures Validate(DemoRecord(id, nombre, d, y)).tenant.compatible == y
  {
    DemoValidity(id, nombre, d, y);
    ValidCompatible(DemoRecord(id, nombre, d, y), y);
  }

  lemma DemoOnlyId(id: int, nombre: string, d: DemoDraw, y: int)
    requires id <= 0 && 2 <= |nombre| <= 50 && (y == 0 || y == 1)
    ensures Validate(DemoRecord(id, nombre, d, y)).Invalid?
    ensures forall f :: f in Validate(DemoRecord(id, nombre, d, y)).fields <==> f == IdInquilino
  {
    var rec := DemoRecord(id, nombre, d, y);
    DemoValidity(id, nombre, d, y);
    forall f
      ensures f in Validate(rec).fields <==> f == IdInquilino
    {
      InvalidFields(rec, f);
    }
  }

  /** Every drawn value is one the schema allows, so only the identifier
      can make a demo record invalid. */
  lemma DemoValidity(id: int, nombre: string, d: DemoDraw, y: int)
    requires 2 <= |nombre| <= 50 && (y == 0 || y == 1)
    ensures forall f :: f != IdInquilino ==> FieldOk(DemoRecord(id, nombre, d, y), f)
    ensures FieldOk(DemoRecord(id, nombre, d, y), IdInquilino) <==> id > 0
    ensures Validate(DemoRecord(id, nombre, d, y)).Valid? <==> id > 0
  {
    var rec := DemoRecord(id, nombre, d, y);
    DemoLevelOk(d);
    DemoMusicOk(d);
    forall f | f != IdInquilino
      ensures FieldOk(rec, f)
    {
    }
  }

  lemma DemoNameOk(d: DemoDraw)
    ensures 2 <= |Pick(Nombres, d.nombre)| <= 50
  {
    var n := Pick(Nombres, d.nombre);
    assert n in Nombres;
  }

  lemma DemoLevelOk(d: DemoDraw)
    ensures NivelOk(Pick(Niveles, d.nivel))
  {
    var v := Pick(Niveles, d.nivel);
    LowerUnchanged(v);
  }

  lemma DemoMusicOk(d: DemoDraw)
    ensures MusicaOk(Pick(Musicas, d.musica))
  {
    var v := Pick(Musicas, d.musica);
    assert v in Musicas;
  }

  /** The levels are written in lower case already. */
  lemma LowerUnchanged(v: string)
    requires v in Niveles
    ensures Lower(v) == v
  {
    assert forall i :: 0 <= i < |v| ==> 'a' <= v[i] <= 'z';
  }

  /** One draw in a million produces the identifier 0, which the schema
      rejects (`id_inquilino` must be positive). */
  lemma DemoIdZeroRejected(d: DemoDraw)
    ensures Validate(DemoRecord(0, Pick(Nombres, d.nombre), d, DemoDrawLabel(d))).Invalid?
  {
    DemoNameOk(d);
    DemoOnlyId(0, Pick(Nombres, d.nombre), d, DemoDrawLabel(d));
  }

  /** The identifier the generator evidently intends: `uuid % 1000000 + 1`,
      always in 1..1000000. */
  function DemoId(uuid: nat): (id: int)
    ensures 1 <= id <= 1000000
  {
    uuid % 1000000 + 1
  }

  /** With that identifier every draw yields a valid record with the rule's
      label. */
  lemma DemoIdAlwaysValid(uuid: nat, d: DemoDraw)
    ensures Validate(DemoRecord(DemoId(uuid), Pick(Nombres, d.nombre), d, DemoDrawLabel(d))).Valid?
    ensures Validate(DemoRecord(DemoId(uuid), Pick(Nombres, d.nombre), d, DemoDrawLabel(d))).tenant.compatible
      == DemoDrawLabel(d)
  {
    DemoNameOk(d);
    DemoOutcome(DemoId(uuid), Pick(Nombres, d.nombre), d, DemoDrawLabel(d));
  }
}
