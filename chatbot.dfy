/** The chat assistant's deterministic helpers: the bounded message
    history, the intent dispatch, the search-term matcher and search, the
    weighted fallback compatibility, the pair analysis with its advice, the
    recommendation shortlist, the factor lists and the matching outlook.
    The engine's own percentages are inputs. */
module Chatbot {
  import opened Common
  import opened Sorting

  // ---------------------------------------------------------------------
  // agregar_mensaje: the history buffer
  // ---------------------------------------------------------------------

  datatype Tipo = Usuario | Bot

  /** One entry of `st.session_state.mensajes_chat`; the timestamp is the
      clock reading passed in. */
  datatype Mensaje = Mensaje(tipo: Tipo, contenido: string, timestamp: int)

  /** The history after appending `m` and keeping the last 50 messages. */
  function Appended(h: seq<Mensaje>, m: Mensaje): (r: seq<Mensaje>)
    ensures |r| == Min(50, |h| + 1)
    ensures r[|r| - 1] == m
    ensures |h| < 50 ==> r == h + [m]
    ensures |h| >= 50 ==> r == h[|h| - 49..] + [m]
  {
    var s := h + [m];
    assert |h| >= 50 ==> s[|s| - 50..] == h[|h| - 49..] + [m];
    Last(s, 50)
  }

  class ChatHistory {
    var mensajes: seq<Mensaje>

    constructor ()
      ensures mensajes == []
    {
      mensajes := [];
    }

    /** `agregar_mensaje` */
    method AgregarMensaje(tipo: Tipo, contenido: string, timestamp: int)
      modifies this
      ensures mensajes == Appended(old(mensajes), Mensaje(tipo, contenido, timestamp))
    {
      mensajes := mensajes + [Mensaje(tipo, contenido, timestamp)];
      if |mensajes| > 50 {
        mensajes := mensajes[|mensajes| - 50..];
      }
    }

    /** `procesar_mensaje`: the user's message, then the reply to it. */
    method ProcesarMensaje(texto: string, respuesta: string, timestamp: int)
      modifies this
      ensures mensajes == Appended(Appended(old(mensajes), Mensaje(Usuario, texto, timestamp)),
        Mensaje(Bot, respuesta, timestamp))
      ensures |mensajes| <= 50 && mensajes[|mensajes| - 1] == Mensaje(Bot, respuesta, timestamp)
    {
      AgregarMensaje(Usuario, texto, timestamp);
      AgregarMensaje(Bot, respuesta, timestamp);
    }

    /** `mensajes_chat[-8:]`, the messages on screen. */
    function Recientes(): (r: seq<Mensaje>)
      reads this
      ensures |r| == Min(8, |mensajes|)
      ensures r == mensajes[|mensajes| - |r|..]
    {
      Last(mensajes, 8)
    }
  }

  /** Truncating to 50 never changes what is on screen: the last eight
      messages are those of the untruncated history. */
  lemma RecentUnaffected(h: seq<Mensaje>, m: Mensaje)
    ensures Last(Appended(h, m), 8) == Last(h + [m], 8)
  {
    var s := h + [m];
    var r := Appended(h, m);
    assert r == s[|s| - |r|..];
    var n := Min(8, |s|);
    assert Last(r, 8) == r[|r| - n..];
    assert r[|r| - n..] == s[|s| - n..];
  }

  /** The message before the new one is the previous last message, and
      the oldest one is dropped only once the history is full. */
  lemma AppendedDropsOldest(h: seq<Mensaje>, m: Mensaje)
    requires |h| > 0
    ensures Appended(h, m)[|Appended(h, m)| - 2] == h[|h| - 1]
    ensures |h| >= 50 ==> Appended(h, m)[0] == h[|h| - 49]
  {
  }

  // ---------------------------------------------------------------------
  // generar_respuesta_avanzada: the dispatch
  // ---------------------------------------------------------------------

  /** Some word of `words` occurs in `s`. */
  predicate AnyIn(words: seq<string>, s: string)
  {
    exists k :: 0 <= k < |words| && Contains(s, words[k])
  }

  const StatsWords: seq<string> := ["estadística", "estadísticas", "resumen", "datos", "análisis completo", "detallad"]
  const CompatWords: seq<string> := ["compatibilidad", "compatible", "analiz"]
  const RecomWords: seq<string> := ["recomenda", "match", "mejor"]
  const SearchWords: seq<string> := ["busca", "encuentra", "filtra"]
  const HelpWords: seq<string> := ["ayuda", "help"]
  const GreetWords: seq<string> := ["hola", "buenos", "saludos"]

  /** The length of the run of digits that starts `s`. */
  function DigitRun(s: string): (n: nat)
    ensures n <= |s|
    ensures forall i :: 0 <= i < n ==> IsDigit(s[i])
    ensures n < |s| ==> !IsDigit(s[n])
    decreases |s|
  {
    if s == [] || !IsDigit(s[0]) then 0 else 1 + DigitRun(s[1..])
  }

  /** `[int(n) for n in re.findall(r'\d+', s)]`: the maximal runs of
      digits, in order. */
  function Numbers(s: string): (r: seq<nat>)
    ensures |r| <= |s|
    decreases |s|
  {
    if s == [] then []
    else if !IsDigit(s[0]) then Numbers(s[1..])
    else
      var n := DigitRun(s);
      [DigitsValue(s[..n])] + Numbers(s[n..])
  }

  lemma {:induction false} NoDigitsNoNumbers(s: string)
    requires forall i :: 0 <= i < |s| ==> !IsDigit(s[i])
    ensures Numbers(s) == []
    decreases |s|
  {
    if s != [] {
      NoDigitsNoNumbers(s[1..]);
    }
  }

  /** A numeral on its own is read back as its number. */
  lemma NumeralRead(n: nat)
    ensures Numbers(NatToString(n)) == [n]
  {
    var s := NatToString(n);
    assert DigitRun(s) == |s|;
    assert s[..|s|] == s && s[|s|..] == [];
    DigitsRoundTrip(n);
  }

  datatype Intent =
    | Estadisticas
    | Compatibilidad(id1: nat, id2: nat)
    | Recomendaciones(id: nat)
    | Busqueda
    | Ayuda
    | Saludo
    | Generica(numeros: seq<nat>)

  /** The branch `generar_respuesta_avanzada` takes, tested in its order:
      statistics, two numbers and a compatibility word, one number and a
      recommendation word, search, help, greeting, anything else. */
  function Dispatch(mensaje: string): Intent
  {
    var low := Lower(mensaje);
    var numeros := Numbers(mensaje);
    if AnyIn(StatsWords, low) then Estadisticas
    else if |numeros| >= 2 && AnyIn(CompatWords, low) then Compatibilidad(numeros[0], numeros[1])
    else if |numeros| >= 1 && AnyIn(RecomWords, low) then Recomendaciones(numeros[0])
    else if AnyIn(SearchWords, low) then Busqueda
    else if AnyIn(HelpWords, low) then Ayuda
    else if AnyIn(GreetWords, low) then Saludo
    else Generica(numeros)
  }

  /** Each branch is taken only when every earlier test failed. */
  lemma DispatchOrder(mensaje: string)
    ensures Dispatch(mensaje).Estadisticas? <==> AnyIn(StatsWords, Lower(mensaje))
    ensures Dispatch(mensaje).Compatibilidad? <==>
      !AnyIn(StatsWords, Lower(mensaje)) && |Numbers(mensaje)| >= 2 && AnyIn(CompatWords, Lower(mensaje))
    ensures Dispatch(mensaje).Recomendaciones? ==> !AnyIn(StatsWords, Lower(mensaje)) && |Numbers(mensaje)| >= 1
    ensures Dispatch(mensaje).Busqueda? || Dispatch(mensaje).Ayuda? || Dispatch(mensaje).Saludo? ==>
      !AnyIn(StatsWords, Lower(mensaje))
    ensures Dispatch(mensaje).Generica? ==> Dispatch(mensaje).numeros == Numbers(mensaje)
  {
  }

  /** The identifiers of a pair or recommendation request are the first
      numbers in the message. */
  lemma DispatchIds(mensaje: string)
    ensures Dispatch(mensaje).Compatibilidad? ==>
      Dispatch(mensaje).id1 == Numbers(mensaje)[0] && Dispatch(mensaje).id2 == Numbers(mensaje)[1]
    ensures Dispatch(mensaje).Recomendaciones? ==> Dispatch(mensaje).id == Numbers(mensaje)[0]
  {
  }

  /** Without digits a message never reaches the pair analysis or the
      recommendations. */
  lemma DigitlessNeverIds(mensaje: string)
    requires forall i :: 0 <= i < |mensaje| ==> !IsDigit(mensaje[i])
    ensures !Dispatch(mensaje).Compatibilidad? && !Dispatch(mensaje).Recomendaciones?
  {
    NoDigitsNoNumbers(mensaje);
  }

  /** A statistics word wins over a pair request. */
  lemma StatsShadowsPair(mensaje: string)
    requires AnyIn(StatsWords, Lower(mensaje)) && AnyIn(CompatWords, Lower(mensaje))
    ensures Dispatch(mensaje) == Estadisticas
  {
  }

  // ---------------------------------------------------------------------
  // generar_busqueda_detallada: the term matcher
  // ---------------------------------------------------------------------

  /** A search term, the column it filters and the value it looks for. */
  type Term = (string, (string, string))

  /** The `busquedas` dictionary, in its insertion order. */
  const Busquedas: seq<Term> := [
    ("fumador", ("fumador", "si")),
    ("no fumador", ("fumador", "no")),
    ("deportista", ("deporte", "si")),
    ("sedentario", ("deporte", "no")),
    ("mascota", ("mascotas", "con mascotas")),
    ("sin mascota", ("mascotas", "sin mascotas")),
    ("ordenad", ("orden", "ordenada")),
    ("desordenad", ("orden", "desordenada")),
    ("madrugador", ("bioritmo", "madrugador")),
    ("nocturno", ("bioritmo", "nocturno")),
    ("universitario", ("nivel_educativo", "universitaria")),
    ("extrovertido", ("personalidad", "extrovertido")),
    ("introvertido", ("personalidad", "introvertido"))]

  /** The position of the first term, from `from` on, that occurs in the
      message. */
  function FirstHit(table: seq<Term>, mensaje: string, from: nat): (r: Option<nat>)
    requires from <= |table|
    ensures r.Some? ==> from <= r.value < |table| && Contains(mensaje, table[r.value].0)
    ensures r.Some? ==> forall j :: from <= j < r.value ==> !Contains(mensaje, table[j].0)
    ensures r.None? <==> forall j :: from <= j < |table| ==> !Contains(mensaje, table[j].0)
    decreases |table| - from
  {
    if from == |table| then None
    else if Contains(mensaje, table[from].0) then Some(from)
    else FirstHit(table, mensaje, from + 1)
  }

  /** The term whose `(campo, valor)` the loop picks, or none. */
  function Buscar(table: seq<Term>, mensaje: string): Option<Term>
  {
    match FirstHit(table, mensaje, 0)
    case Some(k) => Some(table[k])
    case None => None
  }

  /** A term that contains an earlier term is never the one picked. */
  lemma Shadowed(table: seq<Term>, mensaje: string, j: nat, k: nat)
    requires j < k < |table| && Contains(table[k].0, table[j].0)
    ensures FirstHit(table, mensaje, 0) != Some(k)
  {
    if FirstHit(table, mensaje, 0) == Some(k) {
      ContainsTrans(mensaje, table[k].0, table[j].0);
    }
  }

  /** As written, "no fumador", "sin mascota" and "desordenad" are never
      picked: each contains a term listed before it. */
  lemma ShadowedTerms(mensaje: string)
    ensures FirstHit(Busquedas, mensaje, 0) != Some(1)
    ensures FirstHit(Busquedas, mensaje, 0) != Some(5)
    ensures FirstHit(Busquedas, mensaje, 0) != Some(7)
  {
    NonSmokerShadowed(mensaje);
    NoPetsShadowed(mensaje);
    UntidyShadowed(mensaje);
  }

  lemma NonSmokerShadowed(mensaje: string)
    ensures FirstHit(Busquedas, mensaje, 0) != Some(1)
  {
    assert Busquedas[1].0 == "no fumador" && Busquedas[0].0 == "fumador";
    InTerm("no fumador", "fumador", 3);
    Shadowed(Busquedas, mensaje, 0, 1);
  }

  lemma NoPetsShadowed(mensaje: string)
    ensures FirstHit(Busquedas, mensaje, 0) != Some(5)
  {
    assert Busquedas[5].0 == "sin mascota" && Busquedas[4].0 == "mascota";
    InTerm("sin mascota", "mascota", 4);
    Shadowed(Busquedas, mensaje, 4, 5);
  }

  lemma UntidyShadowed(mensaje: string)
    ensures FirstHit(Busquedas, mensaje, 0) != Some(7)
  {
    assert Busquedas[7].0 == "desordenad" && Busquedas[6].0 == "ordenad";
    InTerm("desordenad", "ordenad", 3);
    Shadowed(Busquedas, mensaje, 6, 7);
  }

  /** `b` is the tail of `a` from position `k`. */
  lemma InTerm(a: string, b: string, k: nat)
    requires k + |b| == |a| && a[k..] == b
    ensures Contains(a, b)
  {
    ContainsAt(a, b, k);
  }

  /** So a request for non-smokers searches for smokers. */
  lemma NonSmokerSearchFindsSmokers(mensaje: string)
    requires Contains(mensaje, "no fumador")
    ensures Buscar(Busquedas, mensaje) == Some(("fumador", ("fumador", "si")))
  {
    assert Busquedas[0] == ("fumador", ("fumador", "si"));
    InTerm("no fumador", "fumador", 3);
    ContainsTrans(mensaje, "no fumador", "fumador");
  }

  /** `t` with entries `i` and `i + 1` exchanged. */
  function Swap(t: seq<Term>, i: nat): (r: seq<Term>)
    requires i + 1 < |t|
    ensures |r| == |t| && r[i] == t[i + 1] && r[i + 1] == t[i]
    ensures forall j :: 0 <= j < |t| && j != i && j != i + 1 ==> r[j] == t[j]
  {
    seq(|t|, j requires 0 <= j < |t| => if j == i then t[i + 1] else if j == i + 1 then t[i] else t[j])
  }

  /** The evidently intended table: each longer term moved ahead of the
      term it contains. */
  const BusquedasCorregidas: seq<Term> := Swap(Swap(Swap(Busquedas, 0), 4), 6)

  /** Exchanging two neighbours changes nothing for a message that lacks
      the term moved forward. */
  lemma SwapAgrees(t: seq<Term>, i: nat, mensaje: string)
    requires i + 1 < |t| && !Contains(mensaje, t[i + 1].0)
    ensures Buscar(Swap(t, i), mensaje) == Buscar(t, mensaje)
  {
    var s := Swap(t, i);
    var r := FirstHit(t, mensaje, 0);
    var r' := FirstHit(s, mensaje, 0);
    if r.Some? && r.value == i {
      assert r' == Some(i + 1);
    } else if r.Some? {
      assert r' == r;
    } else {
      assert r'.None?;
    }
  }

  /** The correction changes the answer only for a message holding one of
      the three terms that were shadowed. */
  lemma CorrectedAgrees(mensaje: string)
    requires !Contains(mensaje, "no fumador") && !Contains(mensaje, "sin mascota")
    requires !Contains(mensaje, "desordenad")
    ensures Buscar(BusquedasCorregidas, mensaje) == Buscar(Busquedas, mensaje)
  {
    assert Busquedas[1].0 == "no fumador" && Busquedas[5].0 == "sin mascota" && Busquedas[7].0 == "desordenad";
    var t1 := Swap(Busquedas, 0);
    var t2 := Swap(t1, 4);
    SwapAgrees(Busquedas, 0, mensaje);
    SwapAgrees(t1, 4, mensaje);
    SwapAgrees(t2, 6, mensaje);
  }

  /** Asking for non-smokers now searches for non-smokers. */
  lemma CorrectedNonSmokers(mensaje: string)
    requires Contains(mensaje, "no fumador")
    ensures Buscar(BusquedasCorregidas, mensaje) == Some(("no fumador", ("fumador", "no")))
  {
    assert Busquedas[1] == ("no fumador", ("fumador", "no"));
    assert BusquedasCorregidas[0] == Busquedas[1];
  }

  /** The corrected positions of the terms. */
  lemma CorrectedEntries()
    ensures BusquedasCorregidas[0].0 == "no fumador" && BusquedasCorregidas[1].0 == "fumador"
    ensures BusquedasCorregidas[2].0 == "deportista" && BusquedasCorregidas[3].0 == "sedentario"
    ensures BusquedasCorregidas[4] == ("sin mascota", ("mascotas", "sin mascotas"))
    ensures BusquedasCorregidas[5].0 == "mascota"
    ensures BusquedasCorregidas[6] == ("desordenad", ("orden", "desordenada"))
  {
    assert Busquedas[0].0 == "fumador" && Busquedas[1].0 == "no fumador";
    assert Busquedas[2].0 == "deportista" && Busquedas[3].0 == "sedentario";
    assert Busquedas[4].0 == "mascota" && Busquedas[5] == ("sin mascota", ("mascotas", "sin mascotas"));
    assert Busquedas[7] == ("desordenad", ("orden", "desordenada"));
  }

  /** The entry picked is the first one whose term the message holds. */
  lemma FirstHitAt(table: seq<Term>, mensaje: string, k: nat)
    requires k < |table| && Contains(mensaje, table[k].0)
    requires forall j :: 0 <= j < k ==> !Contains(mensaje, table[j].0)
    ensures Buscar(table, mensaje) == Some(table[k])
  {
    var r := FirstHit(table, mensaje, 0);
    if r.Some? && r.value < k {
    } else if r.Some? && r.value > k {
    }
  }

  /** `FirstHitAt` with each earlier term ruled out by one of its
      characters, at position `w[j]`, that the message lacks. */
  lemma FirstHitWitnessed(table: seq<Term>, mensaje: string, k: nat, w: seq<nat>)
    requires k < |table| && Contains(mensaje, table[k].0) && |w| == k
    requires forall j :: 0 <= j < k ==> w[j] < |table[j].0| && table[j].0[w[j]] !in mensaje
    ensures Buscar(table, mensaje) == Some(table[k])
  {
    forall j | 0 <= j < k
      ensures !Contains(mensaje, table[j].0)
    {
      MissingChar(mensaje, table[j].0, w[j]);
    }
    FirstHitAt(table, mensaje, k);
  }

  /** "sin mascota" now finds residents without pets. */
  lemma CorrectedNoPets()
    ensures Buscar(BusquedasCorregidas, "sin mascota") == Some(("sin mascota", ("mascotas", "sin mascotas")))
  {
    var t := BusquedasCorregidas;
    CorrectedEntries();
    ContainsSelf("sin mascota");
    FirstHitWitnessed(t, "sin mascota", 4, [3, 0, 0, 1]);
  }

  /** "desordenad" now finds untidy residents. */
  lemma CorrectedUntidy()
    ensures Buscar(BusquedasCorregidas, "desordenad") == Some(("desordenad", ("orden", "desordenada")))
  {
    var t := BusquedasCorregidas;
    CorrectedEntries();
    ContainsSelf("desordenad");
    FirstHitWitnessed(t, "desordenad", 6, [3, 0, 2, 5, 1, 0]);
  }

  // ---------------------------------------------------------------------
  // calcular_compatibilidad_simple: the weighted fallback score
  // ---------------------------------------------------------------------

  /** The weighted factors, in the order of `factores_pesos`. */
  const Pesos: seq<(string, real)> := [
    ("fumador", 0.25), ("orden", 0.20), ("bioritmo", 0.20), ("mascotas", 0.15),
    ("deporte", 0.10), ("visitas", 0.05), ("personalidad", 0.05)]

  /** Every weight is positive. */
  predicate Positive(ws: seq<(string, real)>)
  {
    forall i :: 0 <= i < |ws| ==> ws[i].1 > 0.0
  }

  lemma PesosPositive()
    ensures Positive(Pesos)
  {
  }

  /** `factor in row1.index and factor in row2.index` */
  predicate Shared(r1: Row, r2: Row, f: string)
  {
    Has(r1, f) && Has(r2, f)
  }

  /** `peso_total` after the first `n` factors of `ws`. */
  function PesoHasta(r1: Row, r2: Row, ws: seq<(string, real)>, n: nat): (p: real)
    requires n <= |ws| && Positive(ws)
    ensures p >= 0.0
    ensures p == 0.0 <==> forall i :: 0 <= i < n ==> !Shared(r1, r2, ws[i].0)
  {
    if n == 0 then 0.0
    else PesoHasta(r1, r2, ws, n - 1) + (if Shared(r1, r2, ws[n - 1].0) then ws[n - 1].1 else 0.0)
  }

  /** `compatibilidad_total` after the first `n` factors of `ws`: the
      weight of the shared factors whose cells compare equal. */
  function CoincideHasta(r1: Row, r2: Row, ws: seq<(string, real)>, n: nat): (c: real)
    requires n <= |ws| && Positive(ws)
    ensures 0.0 <= c <= PesoHasta(r1, r2, ws, n)
  {
    if n == 0 then 0.0
    else
      var f := ws[n - 1].0;
      CoincideHasta(r1, r2, ws, n - 1) + (if Shared(r1, r2, f) && PyEq(Get(r1, f), Get(r2, f)) then ws[n - 1].1 else 0.0)
  }

  /** The weight of the factors both rows have. */
  function Peso(r1: Row, r2: Row): (p: real)
    ensures p >= 0.0
    ensures p == 0.0 <==> forall i :: 0 <= i < |Pesos| ==> !Shared(r1, r2, Pesos[i].0)
  {
    PesosPositive();
    PesoHasta(r1, r2, Pesos, |Pesos|)
  }

  /** The weight of the shared factors on which the rows agree. */
  function Coincide(r1: Row, r2: Row): (c: real)
    ensures 0.0 <= c <= Peso(r1, r2)
  {
    PesosPositive();
    CoincideHasta(r1, r2, Pesos, |Pesos|)
  }

  /** The age step of the score. */
  datatype Edad = SinEdad | Bono(b: real) | Falla

  /** `max(0, (10 - d) / 10) * 0.1` */
  function BonoEdad(d: nat): (b: real)
    ensures 0.0 <= b <= 0.1
    ensures b > 0.0 <==> d < 10
    ensures d == 0 ==> b == 0.1
  {
    var x := (10.0 - d as real) / 10.0;
    (if x > 0.0 then x else 0.0) * 0.1
  }

  /** Without a shared `edad` column there is no bonus; two integers give
      the bonus of their distance; NaN arithmetic gives NaN, which
      `max(0, nan)` turns into 0; any other pair makes `abs(a - b)` raise. */
  function EdadTerm(r1: Row, r2: Row): (e: Edad)
    ensures e.Bono? ==> 0.0 <= e.b <= 0.1
  {
    if !Shared(r1, r2, "edad") then SinEdad
    else
      match (Get(r1, "edad"), Get(r2, "edad"))
      case (Int(a), Int(b)) => Bono(BonoEdad(if a >= b then a - b else b - a))
      case (Int(_), NaN) => Bono(0.0)
      case (NaN, Int(_)) => Bono(0.0)
      case (NaN, NaN) => Bono(0.0)
      case _ => Falla
  }

  /** `min(95.0, x)` */
  function Tope(x: real): (r: real)
    ensures r <= 95.0 && (r == x || r == 95.0)
  {
    if x < 95.0 then x else 95.0
  }

  lemma RatioBounds(c: real, p: real)
    requires 0.0 <= c <= p && p > 0.0
    ensures 0.0 <= c / p <= 1.0
    ensures c == p ==> c / p == 1.0
  {
    assert (c / p) * p == c;
  }

  /** The final step of the score from the two weight totals and the age
      step. */
  function ScoreOf(p: real, c: real, e: Edad): (s: real)
    requires 0.0 <= c <= p
    requires e.Bono? ==> 0.0 <= e.b <= 0.1
    ensures 0.0 <= s <= 95.0
    ensures p == 0.0 || e.Falla? ==> s == 50.0
  {
    if p == 0.0 then 50.0
    else
      match e
      case Falla => 50.0
      case SinEdad =>
        RatioBounds(c, p);
        Tope(c / p * 100.0)
      case Bono(b) =>
        RatioBounds(c + b, p + 0.1);
        Tope((c + b) / (p + 0.1) * 100.0)
  }

  /** The score of two rows. */
  function PairScore(r1: Row, r2: Row): (s: real)
    ensures 0.0 <= s <= 95.0
    ensures Peso(r1, r2) == 0.0 || EdadTerm(r1, r2).Falla? ==> s == 50.0
  {
    ScoreOf(Peso(r1, r2), Coincide(r1, r2), EdadTerm(r1, r2))
  }

  /** `calcular_compatibilidad_simple(a, b, df)`: the rows are the first
      with each identifier; a missing one makes `.iloc[0]` raise, which
      yields 50. */
  function SimpleScore(t: Table, a: Value, b: Value): (s: real)
    ensures 0.0 <= s <= 95.0
    ensures FindIdFrom(t, a, 0).None? || FindIdFrom(t, b, 0).None? ==> s == 50.0
  {
    match (FindIdFrom(t, a, 0), FindIdFrom(t, b, 0))
    case (Some(i), Some(j)) => PairScore(RowAt(t, i), RowAt(t, j))
    case _ => 50.0
  }

  /** The function's loop over the weighted factors. */
  method CalcularCompatibilidadSimple(t: Table, a: Value, b: Value) returns (s: real)
    ensures s == SimpleScore(t, a, b)
  {
    var i1 := FindIdFrom(t, a, 0);
    var i2 := FindIdFrom(t, b, 0);
    if i1.None? || i2.None? {
      return 50.0;
    }
    s := PuntuarPar(RowAt(t, i1.value), RowAt(t, i2.value));
  }

  /** The score of the two rows once both are found. */
  method PuntuarPar(r1: Row, r2: Row) returns (s: real)
    ensures s == PairScore(r1, r2)
  {
    PesosPositive();
    var total, peso := Acumular(r1, r2, Pesos);
    if peso == 0.0 {
      return 50.0;
    }
    match EdadTerm(r1, r2)
    case Falla =>
      s := 50.0;
    case SinEdad =>
      s := Tope(total / peso * 100.0);
    case Bono(bono) =>
      s := Tope((total + bono) / (peso + 0.1) * 100.0);
  }

  /** The loop of `calcular_compatibilidad_simple` over the weighted
      factors. */
  method Acumular(r1: Row, r2: Row, ws: seq<(string, real)>) returns (total: real, peso: real)
    requires Positive(ws)
    ensures peso == PesoHasta(r1, r2, ws, |ws|) && total == CoincideHasta(r1, r2, ws, |ws|)
  {
    total, peso := 0.0, 0.0;
    var n := 0;
    while n < |ws|
      invariant n <= |ws|
      invariant peso == PesoHasta(r1, r2, ws, n) && total == CoincideHasta(r1, r2, ws, n)
    {
      var f, w := ws[n].0, ws[n].1;
      if Shared(r1, r2, f) {
        peso := peso + w;
        if PyEq(Get(r1, f), Get(r2, f)) {
          total := total + w;
        }
      }
      n := n + 1;
    }
  }

  /** The age bonus is positive exactly below a ten-year difference. */
  lemma AgeBonusPositive(r1: Row, r2: Row, a: int, b: int)
    requires Shared(r1, r2, "edad") && Get(r1, "edad") == Int(a) && Get(r2, "edad") == Int(b)
    ensures EdadTerm(r1, r2).Bono?
    ensures EdadTerm(r1, r2).b > 0.0 <==> -10 < a - b < 10
  {
  }

  /** When every shared factor agrees, the matched weight is all the
      weight. */
  lemma {:induction false} AgreeAll(r1: Row, r2: Row, ws: seq<(string, real)>, n: nat)
    requires n <= |ws| && Positive(ws)
    requires forall i :: 0 <= i < n && Shared(r1, r2, ws[i].0) ==> PyEq(Get(r1, ws[i].0), Get(r2, ws[i].0))
    ensures CoincideHasta(r1, r2, ws, n) == PesoHasta(r1, r2, ws, n)
  {
    if n > 0 {
      AgreeAll(r1, r2, ws, n - 1);
    }
  }

  /** Two rows that agree on every factor they share and on their age
      score the 95 cap. */
  lemma FullAgreement(r1: Row, r2: Row)
    requires exists i :: 0 <= i < |Pesos| && Shared(r1, r2, Pesos[i].0)
    requires forall i :: 0 <= i < |Pesos| && Shared(r1, r2, Pesos[i].0) ==> PyEq(Get(r1, Pesos[i].0), Get(r2, Pesos[i].0))
    requires Shared(r1, r2, "edad") ==> Get(r1, "edad").Int? && Get(r1, "edad") == Get(r2, "edad")
    ensures PairScore(r1, r2) == 95.0
  {
    PesosPositive();
    AgreeAll(r1, r2, Pesos, |Pesos|);
    var p := Peso(r1, r2);
    if Shared(r1, r2, "edad") {
      assert EdadTerm(r1, r2) == Bono(0.1);
      RatioBounds(p + 0.1, p + 0.1);
    } else {
      RatioBounds(p, p);
    }
  }

  /** The separate steps are symmetric in the two rows. */
  lemma {:induction false} PesoSymmetric(r1: Row, r2: Row, ws: seq<(string, real)>, n: nat)
    requires n <= |ws| && Positive(ws)
    ensures PesoHasta(r1, r2, ws, n) == PesoHasta(r2, r1, ws, n)
    ensures CoincideHasta(r1, r2, ws, n) == CoincideHasta(r2, r1, ws, n)
  {
    if n > 0 {
      PesoSymmetric(r1, r2, ws, n - 1);
      var f := ws[n - 1].0;
      PyEqSymmetric(Get(r1, f), Get(r2, f));
    }
  }

  /** The score does not depend on the order of the two residents. */
  lemma PairScoreSymmetric(r1: Row, r2: Row)
    ensures PairScore(r1, r2) == PairScore(r2, r1)
  {
    PesosPositive();
    PesoSymmetric(r1, r2, Pesos, |Pesos|);
    EdadSymmetric(r1, r2);
    assert Peso(r1, r2) == Peso(r2, r1) && Coincide(r1, r2) == Coincide(r2, r1);
  }

  lemma EdadSymmetric(r1: Row, r2: Row)
    ensures EdadTerm(r1, r2) == EdadTerm(r2, r1)
  {
  }

  // ---------------------------------------------------------------------
  // generar_compatibilidad_detallada: the pair analysis and its advice
  // ---------------------------------------------------------------------

  /** The three grades the replies use: impact of a factor, confidence in
      a score, representativeness of a search. */
  datatype Nivel = Alto | Medio | Bajo

  /** `obtener_impacto_factor`: the `impactos` table, `Impacto Medio` for
      any other name. */
  function ImpactoFactor(f: string): (n: Nivel)
    ensures n == Alto <==> f == "fumador" || f == "orden" || f == "bioritmo"
    ensures n == Bajo <==> f == "visitas" || f == "personalidad"
  {
    if f == "fumador" || f == "orden" || f == "bioritmo" then Alto
    else if f == "visitas" || f == "personalidad" then Bajo
    else Medio
  }

  /** The impact shown for a factor follows its weight in the score:
      high for 0.20 and more, low below 0.10, medium between. */
  lemma ImpactFollowsWeight(i: nat)
    requires i < |Pesos|
    ensures ImpactoFactor(Pesos[i].0) == Alto <==> Pesos[i].1 >= 0.20
    ensures ImpactoFactor(Pesos[i].0) == Bajo <==> Pesos[i].1 < 0.10
  {
    assert Pesos[0].0 == "fumador" && Pesos[1].0 == "orden" && Pesos[2].0 == "bioritmo";
    assert Pesos[3].0 == "mascotas" && Pesos[4].0 == "deporte";
    assert Pesos[5].0 == "visitas" && Pesos[6].0 == "personalidad";
  }

  /** The factors the pair analysis shows. */
  const FactoresPar: seq<string> := ["fumador", "mascotas", "orden", "deporte", "bioritmo", "visitas"]

  /** One entry of `analisis_factores`: the two cells as `str()` shows
      them, and whether those texts are equal. */
  datatype FactorPar = FactorPar(factor: string, valor1: string, valor2: string, coincide: bool, impacto: Nivel)

  /** The loop over `factores`: an entry for every factor both rows have. */
  function Analisis(r1: Row, r2: Row, fs: seq<string>): (a: seq<FactorPar>)
    ensures |a| <= |fs|
    ensures forall i :: 0 <= i < |a| ==> a[i].factor in fs && Shared(r1, r2, a[i].factor)
    ensures forall i :: 0 <= i < |a| ==>
      a[i].valor1 == Display(Get(r1, a[i].factor)) && a[i].valor2 == Display(Get(r2, a[i].factor)) &&
      a[i].coincide == (a[i].valor1 == a[i].valor2) && a[i].impacto == ImpactoFactor(a[i].factor)
  {
    if fs == [] then []
    else
      var f := fs[0];
      var v1, v2 := Display(Get(r1, f)), Display(Get(r2, f));
      (if Shared(r1, r2, f) then [FactorPar(f, v1, v2, v1 == v2, ImpactoFactor(f))] else []) + Analisis(r1, r2, fs[1..])
  }

  /** Every factor both rows have is analysed. */
  lemma {:induction false} AnalisisCovers(r1: Row, r2: Row, fs: seq<string>, f: string)
    requires f in fs && Shared(r1, r2, f)
    ensures exists i :: 0 <= i < |Analisis(r1, r2, fs)| && Analisis(r1, r2, fs)[i].factor == f
  {
    var a, rest := Analisis(r1, r2, fs), Analisis(r1, r2, fs[1..]);
    if fs[0] == f {
      assert a[0].factor == f;
    } else {
      AnalisisCovers(r1, r2, fs[1..], f);
      var i :| 0 <= i < |rest| && rest[i].factor == f;
      assert a[|a| - |rest| + i] == rest[i];
    }
  }

  /** `coincidencias` */
  function Coincidencias(a: seq<FactorPar>): (n: nat)
    ensures n <= |a|
    ensures n == |a| <==> forall i :: 0 <= i < |a| ==> a[i].coincide
    ensures n == 0 <==> forall i :: 0 <= i < |a| ==> !a[i].coincide
  {
    if a == [] then 0 else (if a[0].coincide then 1 else 0) + Coincidencias(a[1..])
  }

  /** The analysis compares the `str()` texts, so two missing cells (both
      shown as `nan`) coincide there, although the score's `==` tells
      them apart. */
  lemma MissingCellsCoincide(r1: Row, r2: Row, f: string)
    requires Shared(r1, r2, f) && f !in r1.cells && f !in r2.cells
    ensures Display(Get(r1, f)) == Display(Get(r2, f))
    ensures !PyEq(Get(r1, f), Get(r2, f))
  {
  }

  /** `Alto` from 70, `Medio` from 50. */
  function Confianza(c: real): (n: Nivel)
    ensures n == Alto <==> c >= 70.0
    ensures n == Bajo <==> c < 50.0
  {
    if c >= 70.0 then Alto else if c >= 50.0 then Medio else Bajo
  }

  datatype Veredicto = Excelente | Buena | Moderada | Baja

  /** The recommendation tiers at 85, 70 and 50. */
  function VeredictoDe(c: real): (v: Veredicto)
    ensures v == Excelente <==> c >= 85.0
    ensures v == Buena <==> 70.0 <= c < 85.0
    ensures v == Moderada <==> 50.0 <= c < 70.0
    ensures v == Baja <==> c < 50.0
  {
    if c >= 85.0 then Excelente else if c >= 70.0 then Buena else if c >= 50.0 then Moderada else Baja
  }

  /** A tier is never more favourable than the confidence beside it. */
  lemma VerdictMatchesConfidence(c: real)
    ensures VeredictoDe(c) == Excelente || VeredictoDe(c) == Buena <==> Confianza(c) == Alto
    ensures VeredictoDe(c) == Baja <==> Confianza(c) == Bajo
  {
  }

  const ConsejoFumar := "• Establecer reglas claras sobre fumar en espacios comunes"
  const ConsejoOrden := "• Definir estándares de limpieza y organización"
  const ConsejoBioritmo := "• Acordar horarios de silencio y actividades"
  const ConsejoMascotas := "• Discutir políticas sobre mascotas y responsabilidades"
  const ConsejoComunicacion := "• Mantener comunicación abierta para optimizar la convivencia"
  const ConsejoReuniones := "• Establecer reuniones periódicas para resolver diferencias"
  const ConsejoExcelente := "\n• Excelente base para una convivencia armoniosa"

  /** The tip for a mismatched factor, when it has one. */
  function ConsejoPara(f: string): (r: Option<string>)
    ensures r.Some? <==> f == "fumador" || f == "orden" || f == "bioritmo" || f == "mascotas"
  {
    if f == "fumador" then Some(ConsejoFumar)
    else if f == "orden" then Some(ConsejoOrden)
    else if f == "bioritmo" then Some(ConsejoBioritmo)
    else if f == "mascotas" then Some(ConsejoMascotas)
    else None
  }

  /** The tips for the mismatched factors, in the order of the analysis. */
  function ConsejosFactores(a: seq<FactorPar>): (r: seq<string>)
    ensures |r| <= |a|
    ensures forall i :: 0 <= i < |a| && !a[i].coincide && ConsejoPara(a[i].factor).Some? ==>
      ConsejoPara(a[i].factor).value in r
    ensures (forall i :: 0 <= i < |a| ==> a[i].coincide) ==> r == []
  {
    if a == [] then []
    else
      var rest := ConsejosFactores(a[1..]);
      var t := ConsejoPara(a[0].factor);
      var r := if !a[0].coincide && t.Some? then [t.value] + rest else rest;
      assert forall x :: x in rest ==> x in r;
      r
  }

  /** `consejos` of `obtener_consejos_convivencia`. */
  function Consejos(a: seq<FactorPar>, compat: real): (r: seq<string>)
    ensures |r| >= 1 && |r| <= |a| + 1
    ensures r[|r| - 1] == (if compat >= 70.0 then ConsejoComunicacion else ConsejoReuniones)
    ensures forall i :: 0 <= i < |a| && !a[i].coincide && ConsejoPara(a[i].factor).Some? ==>
      ConsejoPara(a[i].factor).value in r
    ensures (forall i :: 0 <= i < |a| ==> a[i].coincide) ==> |r| == 1
  {
    ConsejosFactores(a) + [if compat >= 70.0 then ConsejoComunicacion else ConsejoReuniones]
  }

  /** The text the function returns. */
  function ConsejosTexto(a: seq<FactorPar>, compat: real): string
  {
    var r := Consejos(a, compat);
    if r != [] then "\n" + Join(r, "\n") else ConsejoExcelente
  }

  /** The list always holds the closing tip, so the "Excelente base"
      fallback is never returned. */
  lemma FallbackUnreachable(a: seq<FactorPar>, compat: real)
    ensures ConsejosTexto(a, compat) == "\n" + Join(Consejos(a, compat), "\n")
  {
  }

  /** The answer of the pair analysis. The engine's percentage is an input:
      `None` when the engine is untrained or answers with an error. */
  datatype Par =
    | ParSinDatos
    | ParSinColumnaId
    | ParNoEncontrado(id: int)
    | ParMismo
    | ParError
    | ParAnalisis(compat: real, factores: seq<FactorPar>, coincidencias: nat, confianza: Nivel,
                  veredicto: Veredicto, consejos: seq<string>)

  /** `generar_compatibilidad_detallada`. Looking up the identifiers
      raises outside the function's `try` without an `id_inquilino` column,
      which the dispatcher reports as its generic error (`ParSinColumnaId`);
      reading `row['nombre']` raises inside it without a `nombre` column,
      which the function reports as its own error. */
  function AnalizarPar(t: Table, id1: int, id2: int, motor: Option<real>): (r: Par)
    ensures IsEmpty(t) ==> r == ParSinDatos
    ensures !IsEmpty(t) && "id_inquilino" !in t.columns ==> r == ParSinColumnaId
    ensures !IsEmpty(t) && "id_inquilino" in t.columns && !HasId(t, id1) ==> r == ParNoEncontrado(id1)
    ensures !IsEmpty(t) && HasId(t, id1) && !HasId(t, id2) ==> r == ParNoEncontrado(id2)
    ensures !IsEmpty(t) && HasId(t, id1) && HasId(t, id2) && id1 == id2 ==> r == ParMismo
    ensures r.ParAnalisis? <==> !IsEmpty(t) && HasId(t, id1) && HasId(t, id2) && id1 != id2 && "nombre" in t.columns
    ensures r.ParAnalisis? ==> r.coincidencias <= |r.factores| <= |FactoresPar| && |r.consejos| >= 1
    ensures r.ParAnalisis? ==>
      r.factores == Analisis(RowAt(t, FindRow(t, id1).value), RowAt(t, FindRow(t, id2).value), FactoresPar) &&
      r.coincidencias == Coincidencias(r.factores)
    ensures r.ParAnalisis? ==>
      r.confianza == Confianza(r.compat) && r.veredicto == VeredictoDe(r.compat) && r.consejos == Consejos(r.factores, r.compat)
    ensures r.ParAnalisis? ==> r.compat == (if motor.Some? then motor.value else SimpleScore(t, Int(id1), Int(id2)))
    ensures r.ParAnalisis? && motor.None? ==> 0.0 <= r.compat <= 95.0
  {
    if IsEmpty(t) then ParSinDatos
    else if "id_inquilino" !in t.columns then ParSinColumnaId
    else if !HasId(t, id1) then ParNoEncontrado(id1)
    else if !HasId(t, id2) then ParNoEncontrado(id2)
    else if id1 == id2 then ParMismo
    else if "nombre" !in t.columns then ParError
    else
      var r1, r2 := RowAt(t, FindRow(t, id1).value), RowAt(t, FindRow(t, id2).value);
      var c := if motor.Some? then motor.value else SimpleScore(t, Int(id1), Int(id2));
      var a := Analisis(r1, r2, FactoresPar);
      ParAnalisis(c, a, Coincidencias(a), Confianza(c), VeredictoDe(c), Consejos(a, c))
  }

  // ---------------------------------------------------------------------
  // generar_recomendaciones_detalladas: the shortlist
  // ---------------------------------------------------------------------

  /** `df[mask]`: the positions, from `from` on, of the rows that satisfy
      `p`, in table order. */
  function Where(t: Table, p: Row -> bool, from: nat): (r: seq<nat>)
    requires from <= |t.records|
    ensures |r| <= |t.records| - from
    ensures forall i :: 0 <= i < |r| ==> from <= r[i] < |t.records| && p(RowAt(t, r[i]))
    ensures forall i, j :: 0 <= i < j < |r| ==> r[i] < r[j]
    decreases |t.records| - from
  {
    if from == |t.records| then []
    else (if p(RowAt(t, from)) then [from] else []) + Where(t, p, from + 1)
  }

  lemma {:induction false} WhereComplete(t: Table, p: Row -> bool, from: nat, k: nat)
    requires from <= k < |t.records| && p(RowAt(t, k))
    ensures k in Where(t, p, from)
    decreases k - from
  {
    if from < k {
      WhereComplete(t, p, from + 1, k);
    }
  }

  /** `df[df['id_inquilino'] != id]`: NaN and non-integer identifiers
      differ from every integer, so those rows are kept. */
  function Otros(t: Table, id: int): (r: seq<nat>)
    ensures forall i :: 0 <= i < |r| ==> r[i] < |t.records| && !PyEq(Get(RowAt(t, r[i]), "id_inquilino"), Int(id))
  {
    Where(t, (row: Row) => !PyEq(Get(row, "id_inquilino"), Int(id)), 0)
  }

  /** Every row other than the base resident's is a candidate. */
  lemma OtrosComplete(t: Table, id: int, k: nat)
    requires k < |t.records| && !PyEq(Get(RowAt(t, k), "id_inquilino"), Int(id))
    ensures k in Otros(t, id)
  {
    WhereComplete(t, (row: Row) => !PyEq(Get(row, "id_inquilino"), Int(id)), 0, k);
  }

  /** A shortlisted resident: the row and its percentage. */
  datatype Candidato = Candidato(pos: nat, compat: real)

  function Compat(c: Candidato): real
  {
    c.compat
  }

  /** The percentage of the candidate in row `k`: the engine's for that
      identifier when it gives one, else the fallback score. */
  function Puntaje(t: Table, id: int, motor: Value -> Option<real>, k: nat): real
    requires k < |t.records|
  {
    var v := Get(RowAt(t, k), "id_inquilino");
    match motor(v)
    case Some(p) => p
    case None => SimpleScore(t, Int(id), v)
  }

  /** `recomendaciones` before the sort: one entry for each of the first 20
      other residents, in table order. */
  function Candidatos(t: Table, id: int, motor: Value -> Option<real>): (c: seq<Candidato>)
    ensures |c| == Min(20, |Otros(t, id)|)
    ensures forall i :: 0 <= i < |c| ==> c[i].pos == Otros(t, id)[i] && c[i].compat == Puntaje(t, id, motor, c[i].pos)
  {
    var ks := Take(Otros(t, id), 20);
    seq(|ks|, i requires 0 <= i < |ks| => Candidato(ks[i], Puntaje(t, id, motor, ks[i])))
  }

  function SumCompat(s: seq<Candidato>): real
  {
    if s == [] then 0.0 else s[0].compat + SumCompat(s[1..])
  }

  /** A sum of percentages between `lo` and `hi` lies between `|s|` times
      each. */
  lemma {:induction false} SumBounds(s: seq<Candidato>, lo: real, hi: real)
    requires forall i :: 0 <= i < |s| ==> lo <= s[i].compat <= hi
    ensures (|s| as real) * lo <= SumCompat(s) <= (|s| as real) * hi
  {
    if s != [] {
      SumBounds(s[1..], lo, hi);
    }
  }

  /** `c['compatibilidad'] >= 70` */
  predicate Mejor(c: Candidato)
  {
    c.compat >= 70.0
  }

  datatype Recomendacion =
    | RecSinDatos
    | RecSinColumnaId
    | RecNoEncontrado(id: int)
    | RecError
    | RecSinOtros
    | RecLista(orden: seq<Candidato>, top: seq<Candidato>, promedio: real, mejores: nat)

  /** What `generar_recomendaciones_detalladas` computes: the candidates
      sorted by descending percentage with Python's stable sort, the first
      five shown, the mean over the first ten, and the count from 70 up.
      Without an `id_inquilino` column the identifier lookup raises
      before the function's `try`, and the dispatcher answers with its
      generic error (`RecSinColumnaId`); reading `nombre` of the base row
      raises inside it without that column. */
  function Recomendar(t: Table, id: int, motor: Value -> Option<real>): (r: Recomendacion)
    ensures IsEmpty(t) ==> r == RecSinDatos
    ensures !IsEmpty(t) && "id_inquilino" !in t.columns ==> r == RecSinColumnaId
    ensures !IsEmpty(t) && "id_inquilino" in t.columns && !HasId(t, id) ==> r == RecNoEncontrado(id)
    ensures !IsEmpty(t) && HasId(t, id) && "nombre" !in t.columns ==> r == RecError
    ensures r.RecSinOtros? <==> !IsEmpty(t) && HasId(t, id) && "nombre" in t.columns && Otros(t, id) == []
    ensures r.RecLista? ==> r.orden == SortDesc(Candidatos(t, id, motor), Compat) && r.top == Take(r.orden, 5)
    ensures r.RecLista? ==> |r.orden| >= 1 && r.mejores == |Filter(r.orden, Mejor)|
    ensures r.RecLista? ==> r.promedio == SumCompat(Take(r.orden, 10)) / (Min(|r.orden|, 10) as real)
  {
    if IsEmpty(t) then RecSinDatos
    else if "id_inquilino" !in t.columns then RecSinColumnaId
    else if !HasId(t, id) then RecNoEncontrado(id)
    else if "nombre" !in t.columns then RecError
    else if Otros(t, id) == [] then RecSinOtros
    else
      var orden := SortDesc(Candidatos(t, id, motor), Compat);
      RecLista(orden, Take(orden, 5), SumCompat(Take(orden, 10)) / (Min(|orden|, 10) as real), |Filter(orden, Mejor)|)
  }

  /** The function itself: the candidate loop, the in-place sort (done by
      the library), and the statistics. */
  method GenerarRecomendaciones(t: Table, id: int, motor: Value -> Option<real>) returns (r: Recomendacion)
    ensures r == Recomendar(t, id, motor)
  {
    if IsEmpty(t) {
      return RecSinDatos;
    }
    if "id_inquilino" !in t.columns {
      return RecSinColumnaId;
    }
    if !HasId(t, id) {
      return RecNoEncontrado(id);
    }
    if "nombre" !in t.columns {
      return RecError;
    }
    var otros := Otros(t, id);
    if otros == [] {
      return RecSinOtros;
    }
    var ks := Take(otros, 20);
    var recs: seq<Candidato> := [];
    var n := 0;
    while n < |ks|
      invariant n <= |ks|
      invariant recs == Candidatos(t, id, motor)[..n]
    {
      var v := Get(RowAt(t, ks[n]), "id_inquilino");
      var c: real;
      match motor(v) {
        case Some(p) =>
          c := p;
        case None =>
          c := CalcularCompatibilidadSimple(t, Int(id), v);
      }
      recs := recs + [Candidato(ks[n], c)];
      n := n + 1;
    }
    assert recs == Candidatos(t, id, motor);
    recs := SortDesc(recs, Compat);
    var k := Min(|recs|, 10);
    r := RecLista(recs, Take(recs, 5), SumCompat(Take(recs, 10)) / (k as real), |Filter(recs, Mejor)|);
  }

  /** The shortlist: at most 20 candidates, none of them the base
      resident, each of them another row of the table; sorted by descending
      percentage; ties in table order; at most five shown, and each shown
      candidate at least as good as every one not shown. */
  lemma Shortlist(t: Table, id: int, motor: Value -> Option<real>)
    requires Recomendar(t, id, motor).RecLista?
    ensures var r := Recomendar(t, id, motor);
      |r.orden| <= 20 && |r.top| <= 5 && r.mejores <= |r.orden| &&
      multiset(r.orden) == multiset(Candidatos(t, id, motor)) &&
      SortedDesc(r.orden, Compat) &&
      (forall k :: WithKey(r.orden, Compat, k) == WithKey(Candidatos(t, id, motor), Compat, k)) &&
      (forall i, j :: 0 <= i < |r.top| && |r.top| <= j < |r.orden| ==> r.orden[i].compat >= r.orden[j].compat)
    ensures var r := Recomendar(t, id, motor);
      forall i :: 0 <= i < |r.orden| ==>
        r.orden[i].pos < |t.records| && !PyEq(Get(RowAt(t, r.orden[i].pos), "id_inquilino"), Int(id))
  {
    var c := Candidatos(t, id, motor);
    var r := Recomendar(t, id, motor);
    SortDescSorted(c, Compat);
    forall k {
      StableOnTies(c, Compat, k);
    }
    forall i | 0 <= i < |r.orden|
      ensures r.orden[i].pos < |t.records| && !PyEq(Get(RowAt(t, r.orden[i].pos), "id_inquilino"), Int(id))
    {
      InMultiset(c, r.orden, i);
    }
  }

  lemma MeanBounds(sum: real, n: real, lo: real, hi: real)
    requires n > 0.0 && n * lo <= sum <= n * hi
    ensures lo <= sum / n <= hi
  {
    assert sum / n * n == sum;
  }

  /** The mean of percentages between `lo` and `hi` lies between them. */
  lemma MeanWithin(s: seq<Candidato>, lo: real, hi: real)
    requires |s| >= 1
    requires forall i :: 0 <= i < |s| ==> lo <= s[i].compat <= hi
    ensures lo <= SumCompat(s) / (|s| as real) <= hi
  {
    SumBounds(s, lo, hi);
    MeanBounds(SumCompat(s), |s| as real, lo, hi);
  }

  /** Sorting and cutting keep percentages within bounds. */
  lemma {:induction false} PrefixWithin(c: seq<Candidato>, orden: seq<Candidato>, m: nat, lo: real, hi: real)
    requires multiset(orden) == multiset(c)
    requires forall i :: 0 <= i < |c| ==> lo <= c[i].compat <= hi
    ensures forall i :: 0 <= i < |Take(orden, m)| ==> lo <= Take(orden, m)[i].compat <= hi
  {
    forall i | 0 <= i < |Take(orden, m)|
      ensures lo <= Take(orden, m)[i].compat <= hi
    {
      InMultiset(c, orden, i);
    }
  }

  /** The mean of the first ten of a sorted list of bounded percentages is
      within the same bounds. */
  lemma SortedMeanWithin(c: seq<Candidato>, lo: real, hi: real)
    requires |c| >= 1
    requires forall i :: 0 <= i < |c| ==> lo <= c[i].compat <= hi
    ensures var orden := SortDesc(c, Compat);
      lo <= SumCompat(Take(orden, 10)) / (Min(|orden|, 10) as real) <= hi
  {
    var orden := SortDesc(c, Compat);
    PrefixWithin(c, orden, 10, lo, hi);
    MeanWithin(Take(orden, 10), lo, hi);
  }

  /** With percentages between `lo` and `hi` (the engine's lie in [10, 95],
      the fallback's in [0, 95]), so does the mean. */
  lemma AverageBounds(t: Table, id: int, motor: Value -> Option<real>, lo: real, hi: real)
    requires Recomendar(t, id, motor).RecLista?
    requires forall i :: 0 <= i < |Candidatos(t, id, motor)| ==> lo <= Candidatos(t, id, motor)[i].compat <= hi
    ensures lo <= Recomendar(t, id, motor).promedio <= hi
  {
    SortedMeanWithin(Candidatos(t, id, motor), lo, hi);
  }

  // ---------------------------------------------------------------------
  // generar_busqueda_detallada: the search
  // ---------------------------------------------------------------------

  datatype Hallazgo =
    | BusquedaSinDatos
    | NoEntendido
    | SinCampo(campo: string)
    | SinResultados(termino: string)
    | ErrorBusqueda(termino: string, filas: seq<nat>)
    | Encontrados(termino: string, filas: seq<nat>, mostradas: seq<nat>, restantes: nat,
                  porcentaje: real, representatividad: Nivel)

  /** `Alta` above 40 per cent, `Media` above 20. */
  function Representatividad(p: real): (n: Nivel)
    ensures n == Alto <==> p > 40.0
    ensures n == Bajo <==> p <= 20.0
  {
    if p > 40.0 then Alto else if p > 20.0 then Medio else Bajo
  }

  /** What makes the listing of the found rows `filas` raise inside the
      function's `try`: a missing `nombre` or `id_inquilino` column (read
      for every listed row), or an `edad` column whose found cells hold a
      text, which `mean()` refuses. */
  predicate ListadoFalla(t: Table, filas: seq<nat>)
  {
    "nombre" !in t.columns || "id_inquilino" !in t.columns ||
    ("edad" in t.columns && exists i :: 0 <= i < |filas| && filas[i] < |t.records| && Get(RowAt(t, filas[i]), "edad").Str?)
  }

  /** The search with the term table `terms` on the lower-cased message:
      the first term the message holds picks a column and a value, the rows
      whose cell equals that value are found, the first 15 are listed and
      the rest are counted; a listing that raises is reported as the
      search's own error. */
  function BusquedaDetallada(terms: seq<Term>, t: Table, mensaje: string): (r: Hallazgo)
    ensures r.BusquedaSinDatos? <==> IsEmpty(t)
    ensures !IsEmpty(t) ==> (r.NoEntendido? <==> Buscar(terms, mensaje).None?)
    ensures r.SinCampo? ==> Buscar(terms, mensaje).Some? && r.campo == Buscar(terms, mensaje).value.1.0 && r.campo !in t.columns
    ensures r.SinResultados? || r.ErrorBusqueda? || r.Encontrados? ==>
      Buscar(terms, mensaje).Some? && r.termino == Buscar(terms, mensaje).value.0 && Buscar(terms, mensaje).value.1.0 in t.columns
    ensures r.ErrorBusqueda? ==> ListadoFalla(t, r.filas)
    ensures r.Encontrados? ==> !ListadoFalla(t, r.filas)
    ensures r.ErrorBusqueda? || r.Encontrados? ==> 1 <= |r.filas| <= |t.records|
    ensures r.Encontrados? ==> 0.0 < r.porcentaje <= 100.0
    ensures r.Encontrados? ==>
      r.porcentaje == (|r.filas| as real) / (|t.records| as real) * 100.0 && r.representatividad == Representatividad(r.porcentaje)
    ensures r.Encontrados? ==> r.mostradas == Take(r.filas, 15) && |r.mostradas| + r.restantes == |r.filas|
    ensures r.ErrorBusqueda? || r.Encontrados? ==> forall i :: 0 <= i < |r.filas| ==>
      r.filas[i] < |t.records| && PyEq(Get(RowAt(t, r.filas[i]), Buscar(terms, mensaje).value.1.0), Str(Buscar(terms, mensaje).value.1.1))
  {
    if IsEmpty(t) then BusquedaSinDatos
    else
      match Buscar(terms, mensaje)
      case None => NoEntendido
      case Some((termino, (campo, valor))) =>
        if campo !in t.columns then SinCampo(campo)
        else
          var filas := Where(t, (row: Row) => PyEq(Get(row, campo), Str(valor)), 0);
          if |filas| == 0 then SinResultados(termino)
          else if ListadoFalla(t, filas) then ErrorBusqueda(termino, filas)
          else
            Share(|filas|, |t.records|);
            var p := (|filas| as real) / (|t.records| as real) * 100.0;
            Encontrados(termino, filas, Take(filas, 15), if |filas| > 15 then |filas| - 15 else 0, p, Representatividad(p))
  }

  /** Every row with the value is found. */
  lemma SearchComplete(t: Table, mensaje: string, k: nat)
    requires BusquedaDetallada(BusquedasCorregidas, t, mensaje).Encontrados? || BusquedaDetallada(BusquedasCorregidas, t, mensaje).ErrorBusqueda?
    requires k < |t.records|
    requires PyEq(Get(RowAt(t, k), Buscar(BusquedasCorregidas, mensaje).value.1.0), Str(Buscar(BusquedasCorregidas, mensaje).value.1.1))
    ensures k in BusquedaDetallada(BusquedasCorregidas, t, mensaje).filas
  {
    var term := Buscar(BusquedasCorregidas, mensaje).value;
    WhereComplete(t, (row: Row) => PyEq(Get(row, term.1.0), Str(term.1.1)), 0, k);
  }

  /** "Nothing found" means no row has the value. */
  lemma SearchNoResults(t: Table, mensaje: string, k: nat)
    requires BusquedaDetallada(BusquedasCorregidas, t, mensaje).SinResultados? && k < |t.records|
    ensures !PyEq(Get(RowAt(t, k), Buscar(BusquedasCorregidas, mensaje).value.1.0), Str(Buscar(BusquedasCorregidas, mensaje).value.1.1))
  {
    var term := Buscar(BusquedasCorregidas, mensaje).value;
    if PyEq(Get(RowAt(t, k), term.1.0), Str(term.1.1)) {
      WhereComplete(t, (row: Row) => PyEq(Get(row, term.1.0), Str(term.1.1)), 0, k);
    }
  }

  /** With the corrected table the search answers as the function does for
      every message that holds none of the three formerly shadowed terms. */
  lemma SearchAgreesAsWritten(t: Table, mensaje: string)
    requires !Contains(mensaje, "no fumador") && !Contains(mensaje, "sin mascota")
    requires !Contains(mensaje, "desordenad")
    ensures BusquedaDetallada(BusquedasCorregidas, t, mensaje) == BusquedaDetallada(Busquedas, t, mensaje)
  {
    CorrectedAgrees(mensaje);
  }

  // ---------------------------------------------------------------------
  // obtener_factores_comunes, obtener_diferencias_clave,
  // obtener_perfil_resumen
  // ---------------------------------------------------------------------

  const FactoresComunes: seq<string> := ["fumador", "mascotas", "orden", "deporte", "bioritmo", "nivel_educativo"]
  const FactoresDiferencia: seq<string> := ["fumador", "mascotas", "orden", "deporte", "bioritmo"]

  /** `f"{factor}: {valor}"` */
  function Etiqueta(f: string, v: Value): string
  {
    f + ": " + Display(v)
  }

  /** The common factors among `fs`: those both rows have with equal cells. */
  function Comunes(r1: Row, r2: Row, fs: seq<string>): (c: seq<string>)
    ensures |c| <= |fs|
    ensures forall x :: x in c <==> exists f :: f in fs && Shared(r1, r2, f) && PyEq(Get(r1, f), Get(r2, f)) && x == Etiqueta(f, Get(r1, f))
  {
    if fs == [] then []
    else
      var f := fs[0];
      var rest := Comunes(r1, r2, fs[1..]);
      assert forall g :: g in fs <==> g == f || g in fs[1..];
      (if Shared(r1, r2, f) && PyEq(Get(r1, f), Get(r2, f)) then [Etiqueta(f, Get(r1, f))] else []) + rest
  }

  /** The key differences among `fs`: the names of the factors both rows
      have with cells that compare unequal. */
  function Diferencias(r1: Row, r2: Row, fs: seq<string>): (d: seq<string>)
    ensures |d| <= |fs|
    ensures forall f :: f in d <==> f in fs && Shared(r1, r2, f) && !PyEq(Get(r1, f), Get(r2, f))
  {
    if fs == [] then []
    else
      var f := fs[0];
      assert forall g :: g in fs <==> g == f || g in fs[1..];
      (if Shared(r1, r2, f) && !PyEq(Get(r1, f), Get(r2, f)) then [f] else []) + Diferencias(r1, r2, fs[1..])
  }

  /** Over the same factors, every factor both rows have is either common
      or a difference. */
  lemma {:induction false} CommonOrDifferent(r1: Row, r2: Row, fs: seq<string>)
    requires forall i :: 0 <= i < |fs| ==> Shared(r1, r2, fs[i])
    ensures |Comunes(r1, r2, fs)| + |Diferencias(r1, r2, fs)| == |fs|
  {
    if fs != [] {
      CommonOrDifferent(r1, r2, fs[1..]);
    }
  }

  /** The differences are symmetric in the two residents. */
  lemma {:induction false} DifferencesSymmetric(r1: Row, r2: Row, fs: seq<string>)
    ensures Diferencias(r1, r2, fs) == Diferencias(r2, r1, fs)
  {
    if fs != [] {
      PyEqSymmetric(Get(r1, fs[0]), Get(r2, fs[0]));
      DifferencesSymmetric(r1, r2, fs[1..]);
    }
  }

  function RasgoFumador(r: Row): string
  {
    if PyEq(Get(r, "fumador"), Str("no")) then "No fumador" else "Fumador"
  }

  function RasgoDeporte(r: Row): string
  {
    if PyEq(Get(r, "deporte"), Str("si")) then "Deportista" else "Sedentario"
  }

  function RasgoOrden(r: Row): string
  {
    if PyEq(Get(r, "orden"), Str("ordenada")) then "Ordenado" else "Relajado"
  }

  function RasgoBioritmo(r: Row): string
  {
    if PyEq(Get(r, "bioritmo"), Str("madrugador")) then "Madrugador" else "Nocturno"
  }

  /** The four profile columns, in the order the summary visits them. */
  const ColumnasRasgo: seq<string> := ["fumador", "deporte", "orden", "bioritmo"]

  /** The trait a profile column gives. */
  function RasgoDe(r: Row, col: string): string
  {
    if col == "fumador" then RasgoFumador(r)
    else if col == "deporte" then RasgoDeporte(r)
    else if col == "orden" then RasgoOrden(r)
    else RasgoBioritmo(r)
  }

  /** The columns of `cols` the row has, in order. */
  function Presentes(r: Row, cols: seq<string>): (p: seq<string>)
    ensures |p| <= |cols|
    ensures forall x :: x in p <==> x in cols && Has(r, x)
  {
    if cols == [] then []
    else
      assert forall g :: g in cols <==> g == cols[0] || g in cols[1..];
      (if Has(r, cols[0]) then [cols[0]] else []) + Presentes(r, cols[1..])
  }

  /** The traits of the columns of `cols` the row has, in order. */
  function RasgosDe(r: Row, cols: seq<string>): (c: seq<string>)
    ensures |c| <= |cols|
  {
    if cols == [] then []
    else (if Has(r, cols[0]) then [RasgoDe(r, cols[0])] else []) + RasgosDe(r, cols[1..])
  }

  /** The traits are those of the present columns, one each, in order. */
  lemma {:induction false} RasgosDePresentes(r: Row, cols: seq<string>)
    ensures |RasgosDe(r, cols)| == |Presentes(r, cols)|
    ensures forall i :: 0 <= i < |RasgosDe(r, cols)| ==> RasgosDe(r, cols)[i] == RasgoDe(r, Presentes(r, cols)[i])
  {
    if cols != [] {
      RasgosDePresentes(r, cols[1..]);
    }
  }

  /** `caracteristicas`: one trait for each of the four columns the row has. */
  function Rasgos(r: Row): (c: seq<string>)
    ensures |c| <= 4
  {
    (if Has(r, "fumador") then [RasgoFumador(r)] else []) +
    (if Has(r, "deporte") then [RasgoDeporte(r)] else []) +
    (if Has(r, "orden") then [RasgoOrden(r)] else []) +
    (if Has(r, "bioritmo") then [RasgoBioritmo(r)] else [])
  }

  /** A column list, taken one column at a time. */
  lemma RasgosDeCons(r: Row, col: string, cols: seq<string>)
    ensures RasgosDe(r, [col] + cols) == (if Has(r, col) then [RasgoDe(r, col)] else []) + RasgosDe(r, cols)
  {
  }

  /** The four tests add, in column order, the trait of each profile
      column the row has. */
  lemma RasgosInOrder(r: Row)
    ensures Rasgos(r) == RasgosDe(r, ColumnasRasgo)
  {
    var f := if Has(r, "fumador") then [RasgoFumador(r)] else [];
    var d := if Has(r, "deporte") then [RasgoDeporte(r)] else [];
    var o := if Has(r, "orden") then [RasgoOrden(r)] else [];
    var b := if Has(r, "bioritmo") then [RasgoBioritmo(r)] else [];
    assert Rasgos(r) == f + (d + (o + b)) by {
      SeqAssoc(f, d, o + b);
      SeqAssoc(d, o, b);
      SeqAssoc(f + d, o, b);
    }
    RasgosDeCons(r, "bioritmo", []);
    assert ["bioritmo"] + [] == ["bioritmo"];
    assert RasgosDe(r, ["bioritmo"]) == b;
    RasgosDeCons(r, "orden", ["bioritmo"]);
    assert ["orden"] + ["bioritmo"] == ["orden", "bioritmo"];
    assert RasgosDe(r, ["orden", "bioritmo"]) == o + b;
    RasgosDeCons(r, "deporte", ["orden", "bioritmo"]);
    assert ["deporte"] + ["orden", "bioritmo"] == ["deporte", "orden", "bioritmo"];
    assert RasgosDe(r, ["deporte", "orden", "bioritmo"]) == d + (o + b);
    RasgosDeCons(r, "fumador", ["deporte", "orden", "bioritmo"]);
    ColumnasRasgoCons();
  }

  lemma ColumnasRasgoCons()
    ensures ColumnasRasgo == ["fumador"] + ["deporte", "orden", "bioritmo"]
  {
  }

  /** `obtener_perfil_resumen`, as the list it joins with ", ": the traits
      of the first three profile columns the row has. */
  function PerfilResumen(r: Row): (p: seq<string>)
    ensures |p| == Min(3, |Presentes(r, ColumnasRasgo)|)
    ensures forall i :: 0 <= i < |p| ==> p[i] == RasgoDe(r, Presentes(r, ColumnasRasgo)[i])
  {
    RasgosInOrder(r);
    RasgosDePresentes(r, ColumnasRasgo);
    Take(Rasgos(r), 3)
  }

  /** A row with all four columns never shows its rhythm: the cut to three
      drops it. */
  lemma ProfileDropsRhythm(r: Row)
    requires Has(r, "fumador") && Has(r, "deporte") && Has(r, "orden") && Has(r, "bioritmo")
    ensures PerfilResumen(r) == [RasgoFumador(r), RasgoDeporte(r), RasgoOrden(r)]
  {
    assert Rasgos(r) == [RasgoFumador(r), RasgoDeporte(r), RasgoOrden(r), RasgoBioritmo(r)];
  }

  // ---------------------------------------------------------------------
  // obtener_oportunidades_matching
  // ---------------------------------------------------------------------

  datatype Oportunidad = NoDeterminado | BasePequena | BaseCreciente | BaseAmplia

  function Oportunidades(t: Table): (o: Oportunidad)
    ensures o == NoDeterminado <==> IsEmpty(t)
    ensures o == BasePequena <==> !IsEmpty(t) && |t.records| < 10
    ensures o == BaseCreciente <==> !IsEmpty(t) && 10 <= |t.records| < 50
    ensures o == BaseAmplia <==> !IsEmpty(t) && |t.records| >= 50
  {
    if IsEmpty(t) then NoDeterminado
    else if |t.records| < 10 then BasePequena
    else if |t.records| < 50 then BaseCreciente
    else BaseAmplia
  }

  function Grado(o: Oportunidad): nat
  {
    match o
    case NoDeterminado => 0
    case BasePequena => 1
    case BaseCreciente => 2
    case BaseAmplia => 3
  }

  /** More registered residents never give a poorer outlook. */
  lemma OutlookMonotone(t1: Table, t2: Table)
    requires !IsEmpty(t1) && !IsEmpty(t2) && |t1.records| <= |t2.records|
    ensures Grado(Oportunidades(t1)) <= Grado(Oportunidades(t2))
  {
  }
}
