/** The deterministic rules of `RoomMatchIAEngine`: feature-column
    selection, the fallback labelling rule, the blend-and-clamp
    compatibility percentage with its 0.5 defaults, the model-loading
    decision over the files present, the ethics summary and the age bands.
    Encoder outputs, cosine similarities and predicted probabilities are
    inputs. */
module IaEngine {
  import opened Common
  import EthicsMonitor

  // ---------------------------------------------------------------------
  // _preparar_datos: feature columns and labels
  // ---------------------------------------------------------------------

  /** The columns never used as features. */
  const Excluded: seq<string> := ["_id", "id_inquilino", "nombre", "created_at"]

  /** `[col for col in columns if col not in [...]]` */
  function FeatureColumns(columns: seq<string>): (r: seq<string>)
    ensures |r| <= |columns|
    ensures forall c :: c in r <==> c in columns && c !in Excluded
  {
    if columns == [] then []
    else (if columns[0] in Excluded then [] else [columns[0]]) + FeatureColumns(columns[1..])
  }

  /** The filter keeps the original order: it distributes over
      concatenation. */
  lemma {:induction false} FeatureColumnsAppend(a: seq<string>, b: seq<string>)
    ensures FeatureColumns(a + b) == FeatureColumns(a) + FeatureColumns(b)
    decreases |a|
  {
    if a == [] {
      assert a + b == b;
    } else {
      assert (a + b)[0] == a[0] && (a + b)[1..] == a[1..] + b;
      FeatureColumnsAppend(a[1..], b);
    }
  }

  /** The label column itself is not excluded, so a frame carrying
      `compatible` trains on it as a feature. */
  lemma CompatibleIsFeature(columns: seq<string>)
    requires "compatible" in columns
    ensures "compatible" in FeatureColumns(columns)
  {
  }

  /** `fillna("desconocido").astype(str)` on one cell. */
  function FeatureText(v: Value): (s: string)
    ensures v.Null? || v.NaN? ==> s == "desconocido"
    ensures v.Str? ==> s == v.s
  {
    if v.Null? || v.NaN? then "desconocido" else Display(v)
  }

  /** The string feature matrix: one row per record, one cell per feature
      column. */
  function FeatureMatrix(t: Table): (x: seq<seq<string>>)
    ensures |x| == |t.records|
    ensures forall i :: 0 <= i < |x| ==> |x[i]| == |FeatureColumns(t.columns)|
  {
    var cols := FeatureColumns(t.columns);
    seq(|t.records|, i requires 0 <= i < |t.records| =>
      seq(|cols|, j requires 0 <= j < |cols| => FeatureText(Get(RowAt(t, i), cols[j]))))
  }

  /** A record that lacks a feature column reads "desconocido" there. */
  lemma MissingIsUnknown(t: Table, i: nat, j: nat)
    requires i < |t.records| && j < |FeatureColumns(t.columns)|
    requires FeatureColumns(t.columns)[j] !in t.records[i]
    ensures FeatureMatrix(t)[i][j] == "desconocido"
  {
  }

  /** `str(row.get(col, "")).lower()` */
  function Attr(r: Row, col: string): string
  {
    if Has(r, col) then Lower(Display(Get(r, col))) else ""
  }

  predicate NonSmoker(r: Row)   { Attr(r, "fumador") == "no" }
  predicate Tidy(r: Row)        { Attr(r, "orden") == "ordenada" }
  predicate NoPets(r: Row)      { Attr(r, "mascotas") == "sin mascotas" }

  /** `_generar_labels_reglas` on one row: one point per condition, label 1
      from two points. */
  function RuleLabel(r: Row): (y: int)
    ensures y == 0 || y == 1
    ensures y == 1 <==> (NonSmoker(r) && Tidy(r)) || (NonSmoker(r) && NoPets(r)) || (Tidy(r) && NoPets(r))
  {
    var score := (if NonSmoker(r) then 1 else 0) + (if Tidy(r) then 1 else 0) + (if NoPets(r) then 1 else 0);
    if score >= 2 then 1 else 0
  }

  /** A column the frame lacks scores nothing. */
  lemma MissingScoresNothing(r: Row)
    requires !Has(r, "fumador")
    ensures RuleLabel(r) == 1 <==> Tidy(r) && NoPets(r)
  {
  }

  /** The comparison ignores case: "NO" and "Ordenada" count. */
  lemma RuleIgnoresCase()
    ensures RuleLabel(Row(["fumador", "orden"], map["fumador" := Str("NO"), "orden" := Str("Ordenada")])) == 1
  {
    var r := Row(["fumador", "orden"], map["fumador" := Str("NO"), "orden" := Str("Ordenada")]);
    assert Lower("NO") == "no";
    assert Lower("Ordenada") == "ordenada";
    assert NonSmoker(r) && Tidy(r);
  }

  /** The rule label of every row, in row order. */
  function RuleLabels(t: Table): (ls: seq<int>)
    ensures |ls| == |t.records|
  {
    seq(|t.records|, i requires 0 <= i < |t.records| => RuleLabel(RowAt(t, i)))
  }

  /** The labels of the first `|labels|` rows. */
  predicate RuleLabelsSoFar(t: Table, labels: seq<int>)
  {
    |labels| <= |t.records| && labels == RuleLabels(t)[..|labels|]
  }

  /** Labelling one more row keeps the labels in step with the rows. */
  lemma RuleLabelsStep(t: Table, labels: seq<int>, y: int)
    requires RuleLabelsSoFar(t, labels) && |labels| < |t.records|
    requires y == RuleLabel(RowAt(t, |labels|))
    ensures RuleLabelsSoFar(t, labels + [y])
  {
    assert RuleLabels(t)[..|labels| + 1] == RuleLabels(t)[..|labels|] + [y];
  }

  /** `_generar_labels_reglas`: one label per row, in row order. */
  method GenerarLabelsReglas(t: Table) returns (labels: seq<int>)
    ensures |labels| == |t.records|
    ensures forall i :: 0 <= i < |t.records| ==> labels[i] == RuleLabel(RowAt(t, i))
  {
    labels := [];
    var i := 0;
    while i < |t.records|
      invariant 0 <= i <= |t.records|
      invariant |labels| == i
      invariant RuleLabelsSoFar(t, labels)
    {
      var row := RowAt(t, i);
      var score := 0;
      if NonSmoker(row) {
        score := score + 1;
      }
      if Tidy(row) {
        score := score + 1;
      }
      if NoPets(row) {
        score := score + 1;
      }
      var y := if score >= 2 then 1 else 0;
      assert y == RuleLabel(row);
      RuleLabelsStep(t, labels, y);
      labels := labels + [y];
      i := i + 1;
    }
  }

  /** `df["compatible"].astype(int)`: fails on the first cell that is not
      an integer. */
  function CastLabels(t: Table): (r: Result<seq<int>>)
    ensures r.Ok? <==> forall i :: 0 <= i < |t.records| ==> IntOf(Get(RowAt(t, i), "compatible")).Some?
    ensures r.Ok? ==> |r.value| == |t.records|
    ensures r.Ok? ==> forall i :: 0 <= i < |t.records| ==> IntOf(Get(RowAt(t, i), "compatible")) == Some(r.value[i])
  {
    if forall i :: 0 <= i < |t.records| ==> IntOf(Get(RowAt(t, i), "compatible")).Some? then
      Ok(seq(|t.records|, i requires 0 <= i < |t.records| => IntOf(Get(RowAt(t, i), "compatible")).value))
    else Err("invalid literal for int()")
  }

  datatype Prepared = Prepared(featureColumns: seq<string>, x: seq<seq<string>>, y: seq<int>)

  /** `_preparar_datos` without the encoding and scaling: the features, and
      the labels from the `compatible` column when there is one, else from
      the rule. */
  function PrepararDatos(t: Table): (r: Result<Prepared>)
    ensures FeatureColumns(t.columns) == [] ==> r.Err?
    ensures r.Ok? ==> r.value.featureColumns == FeatureColumns(t.columns) && r.value.x == FeatureMatrix(t)
    ensures r.Ok? ==> |r.value.y| == |t.records|
    ensures r.Ok? && "compatible" in t.columns ==>
      forall i :: 0 <= i < |t.records| ==> IntOf(Get(RowAt(t, i), "compatible")) == Some(r.value.y[i])
    ensures r.Ok? && "compatible" !in t.columns ==>
      forall i :: 0 <= i < |t.records| ==> r.value.y[i] == RuleLabel(RowAt(t, i))
    ensures "compatible" !in t.columns && FeatureColumns(t.columns) != [] ==> r.Ok?
    ensures "compatible" in t.columns && FeatureColumns(t.columns) != [] ==> (r.Ok? <==> CastLabels(t).Ok?)
  {
    var cols := FeatureColumns(t.columns);
    if cols == [] then Err("No hay columnas válidas para entrenar")
    else if "compatible" in t.columns then
      match CastLabels(t)
      case Ok(y) => Ok(Prepared(cols, FeatureMatrix(t), y))
      case Err(e) => Err(e)
    else
      Ok(Prepared(cols, FeatureMatrix(t), seq(|t.records|, i requires 0 <= i < |t.records| => RuleLabel(RowAt(t, i)))))
  }

  /** With a `compatible` column the rule is not consulted: two frames with
      the same columns and the same `compatible` cells get the same labels,
      whatever their other cells hold. */
  lemma CompatibleOverridesRule(t: Table, u: Table)
    requires t.columns == u.columns && "compatible" in t.columns && |t.records| == |u.records|
    requires forall i :: 0 <= i < |t.records| ==> Get(RowAt(t, i), "compatible") == Get(RowAt(u, i), "compatible")
    ensures PrepararDatos(t).Ok? == PrepararDatos(u).Ok?
    ensures PrepararDatos(t).Ok? ==> PrepararDatos(t).value.y == PrepararDatos(u).value.y
  {
    assert CastLabels(t).Ok? == CastLabels(u).Ok?;
  }

  // ---------------------------------------------------------------------
  // calcular_compatibilidad_avanzada
  // ---------------------------------------------------------------------

  /** `max(10.0, min(95.0, (0.5 * s + 0.5 * p) * 100))` */
  function Blend(s: real, p: real): (r: real)
    ensures 10.0 <= r <= 95.0
    ensures 10.0 <= (0.5 * s + 0.5 * p) * 100.0 <= 95.0 ==> r == (0.5 * s + 0.5 * p) * 100.0
  {
    Clamp(10.0, 95.0, (0.5 * s + 0.5 * p) * 100.0)
  }

  /** A better similarity or probability never lowers the percentage. */
  lemma BlendMonotone(s: real, p: real, s': real, p': real)
    requires s <= s' && p <= p'
    ensures Blend(s, p) <= Blend(s', p')
  {
  }

  const Good: string := "✅ Buena combinación"
  const Poor: string := "⚠️ Poca compatibilidad"

  function Recommendation(compat: real): (r: string)
    ensures r == Good <==> compat >= 60.0
    ensures r == Good || r == Poor
  {
    if compat >= 60.0 then Good else Poor
  }

  /** The clamp never moves a score across the 60 threshold: the verdict is
      the one the raw blend would get. */
  lemma RecommendationOfRawBlend(s: real, p: real)
    ensures Recommendation(Blend(s, p)) == Good <==> (0.5 * s + 0.5 * p) * 100.0 >= 60.0
  {
  }

  /** What a foreign call gave: a value, or an exception. */
  datatype Foreign = Raises | Gives(x: real)

  /** The model state the rules read. */
  datatype ModelMetrics = ModelMetrics(
    accuracy: real, precision: real, recall: real, f1Score: real,
    crossValMean: real, crossValStd: real, trainingTime: real,
    lastTraining: Option<string>, modelVersion: string)

  const DefaultMetrics: ModelMetrics := ModelMetrics(0.0, 0.0, 0.0, 0.0, 0.0, 0.0, 0.0, None, "2.0")

  datatype EngineState = EngineState(
    hasEncoder: bool,
    hasModel: bool,
    isTrained: bool,
    featureNames: seq<string>,
    featureImportance: map<string, real>,
    metrics: ModelMetrics)

  /** The state `__init__` leaves. */
  const Untrained: EngineState := EngineState(false, false, false, [], map[], DefaultMetrics)

  /** `_calcular_similitud_coseno`: 0.5 without an encoder, else the cosine
      similarity of the two encoded rows (`None` when encoding raises). */
  function Similarity(s: EngineState, cosine: Foreign): (r: Option<real>)
    ensures !s.hasEncoder ==> r == Some(0.5)
    ensures s.hasEncoder ==> (r.None? <==> cosine.Raises?)
  {
    if !s.hasEncoder then Some(0.5)
    else match cosine
      case Raises => None
      case Gives(x) => Some(x)
  }

  /** `_predecir_satisfaccion`: 0.5 without a model; with a model it encodes
      the pair first, which raises when there is no encoder. */
  function Prediction(s: EngineState, proba: Foreign): (r: Option<real>)
    ensures !s.hasModel ==> r == Some(0.5)
    ensures s.hasModel && !s.hasEncoder ==> r.None?
    ensures s.hasModel && s.hasEncoder ==> (r.None? <==> proba.Raises?)
  {
    if !s.hasModel then Some(0.5)
    else if !s.hasEncoder then None
    else match proba
      case Raises => None
      case Gives(x) => Some(x)
  }

  datatype Compat = Compat(percentage: real, similarity: real, prediction: real, recommendation: string)

  /** `calcular_compatibilidad_avanzada`: both residents are looked up by id
      (no check that they differ), then similarity and probability are
      blended; any exception gives the error dictionary. */
  function CompatibilidadAvanzada(s: EngineState, t: Table, id1: int, id2: int, cosine: Foreign, proba: Foreign): (r: Result<Compat>)
    ensures r.Ok? <==> HasId(t, id1) && HasId(t, id2) && Similarity(s, cosine).Some? && Prediction(s, proba).Some?
    ensures r.Ok? ==> 10.0 <= r.value.percentage <= 95.0
    ensures r.Ok? ==> r.value.percentage == Blend(Similarity(s, cosine).value, Prediction(s, proba).value)
    ensures r.Ok? ==> (r.value.recommendation == Good <==> r.value.percentage >= 60.0)
  {
    if FindRow(t, id1).None? || FindRow(t, id2).None? then Err("single positional indexer is out-of-bounds")
    else match (Similarity(s, cosine), Prediction(s, proba))
      case (Some(sim), Some(pred)) =>
        var compat := Blend(sim, pred);
        Ok(Compat(compat, sim * 100.0, pred * 100.0, Recommendation(compat)))
      case _ => Err("encoder unavailable")
  }

  /** An engine with neither encoder nor model scores every pair it finds
      at exactly 50. */
  lemma UntrainedBlendsToFifty(s: EngineState, t: Table, id1: int, id2: int, cosine: Foreign, proba: Foreign)
    requires !s.hasEncoder && !s.hasModel && HasId(t, id1) && HasId(t, id2)
    ensures CompatibilidadAvanzada(s, t, id1, id2, cosine, proba) == Ok(Compat(50.0, 50.0, 50.0, Poor))
  {
  }

  /** A resident can be paired with themself: nothing refuses `id1 == id2`. */
  lemma SelfPairScored(s: EngineState, t: Table, id: int)
    requires !s.hasEncoder && !s.hasModel && HasId(t, id)
    ensures CompatibilidadAvanzada(s, t, id, id, Raises, Raises).Ok?
  {
  }

  /** An engine with a model but no encoder (what a legacy `modelo.pkl`
      load leaves) cannot score any pair. */
  lemma ModelWithoutEncoderFails(s: EngineState, t: Table, id1: int, id2: int, cosine: Foreign, proba: Foreign)
    requires s.hasModel && !s.hasEncoder
    ensures CompatibilidadAvanzada(s, t, id1, id2, cosine, proba).Err?
  {
  }

  // ---------------------------------------------------------------------
  // cargar_modelos
  // ---------------------------------------------------------------------

  /** A pickle file: absent, present but raising on load, or loadable. */
  datatype PklFile = Missing | Corrupt | Loadable

  /** The `metrics` entry: a dictionary (numeric entries and
      `last_training`), or something else, whose `.get` raises. */
  datatype MetricsField = MetricsDict(values: map<string, real>, lastTraining: Option<string>) | NotADict

  datatype MetadataFile =
    | NoMetadata
    | BadMetadata
    | Metadata(featureNames: Option<seq<string>>, featureImportance: Option<map<string, real>>, metrics: MetricsField)

  /** `modelo.pkl`: absent, raising on load, or a package whose `modelo`
      entry may be missing. */
  datatype LegacyFile =
    | NoLegacy
    | BadLegacy
    | Legacy(hasModel: bool, features: Option<seq<string>>, metricas: MetricsField)

  /** What `config.MODEL_PATH` holds. */
  datatype ModelDir = ModelDir(encoderPkl: PklFile, modelPkl: PklFile, metadata: MetadataFile, legacy: LegacyFile)

  function GetOr<K, V>(m: map<K, V>, k: K, d: V): V
  {
    if k in m then m[k] else d
  }

  function OptionOr<T>(o: Option<T>, d: T): T
  {
    if o.Some? then o.value else d
  }

  /** `ModelMetrics(...)` from the metadata's metrics dictionary. */
  function MetricsFromMetadata(values: map<string, real>, lastTraining: Option<string>): (m: ModelMetrics)
    ensures m.modelVersion == "2.0" && m.lastTraining == lastTraining
    ensures "cross_val_std" !in values ==> m.crossValStd == 0.0
  {
    ModelMetrics(GetOr(values, "accuracy", 0.0), GetOr(values, "precision", 0.0),
      GetOr(values, "recall", 0.0), GetOr(values, "f1_score", 0.0),
      GetOr(values, "cross_val_mean", 0.0), GetOr(values, "cross_val_std", 0.0),
      GetOr(values, "training_time", 0.0), lastTraining, "2.0")
  }

  /** `ModelMetrics(...)` from a legacy package: `cross_val` becomes the
      mean, the deviation is 0, and a non-dictionary gives the defaults. */
  function MetricsFromLegacy(metricas: MetricsField): (m: ModelMetrics)
    ensures m.crossValStd == 0.0 && m.trainingTime == 0.0 && m.lastTraining.None? && m.modelVersion == "2.0"
    ensures metricas.MetricsDict? ==> m.crossValMean == GetOr(metricas.values, "cross_val", 0.0)
    ensures metricas.NotADict? ==> m == DefaultMetrics
  {
    match metricas
    case NotADict => DefaultMetrics
    case MetricsDict(values, _) =>
      ModelMetrics(GetOr(values, "accuracy", 0.0), GetOr(values, "precision", 0.0),
        GetOr(values, "recall", 0.0), GetOr(values, "f1_score", 0.0),
        GetOr(values, "cross_val", 0.0), 0.0, 0.0, None, "2.0")
  }

  /** Both pickles of the new format are on disk. */
  predicate PairExists(d: ModelDir)
  {
    !d.encoderPkl.Missing? && !d.modelPkl.Missing?
  }

  /** The pickle step does not raise. */
  predicate PairLoads(d: ModelDir)
  {
    !PairExists(d) || (d.encoderPkl.Loadable? && d.modelPkl.Loadable?)
  }

  /** `cargar_modelos` as a state transition: the new state and the
      returned flag. The pickles load first (encoder, then model); a
      metadata file then decides alone; the legacy package is consulted only
      without one. Every exception returns False with whatever was already
      assigned. */
  function Load(s: EngineState, d: ModelDir): (EngineState, bool)
  {
    if PairExists(d) && d.encoderPkl.Corrupt? then (s, false)
    else
      var s1 := if PairExists(d) then s.(hasEncoder := true) else s;
      if PairExists(d) && d.modelPkl.Corrupt? then (s1, false)
      else
        var s2 := if PairExists(d) then s1.(hasModel := true) else s1;
        match d.metadata
        case BadMetadata => (s2, false)
        case Metadata(names, importance, metrics) =>
          var s3 := s2.(featureNames := OptionOr(names, []), featureImportance := OptionOr(importance, map[]));
          if metrics.NotADict? then (s3, false)
          else (s3.(metrics := MetricsFromMetadata(metrics.values, metrics.lastTraining), isTrained := true), true)
        case NoMetadata =>
          match d.legacy
          case Legacy(model, features, metricas) =>
            (s2.(hasModel := model, hasEncoder := false, featureNames := OptionOr(features, []),
                 metrics := MetricsFromLegacy(metricas), isTrained := true), true)
          case _ => (s2, false)
  }

  /** When `cargar_modelos` returns True: the pickles did not raise, and
      either a readable metadata file with a metrics dictionary exists, or
      there is no metadata file and a readable legacy package. */
  lemma LoadOkIff(s: EngineState, d: ModelDir)
    ensures Load(s, d).1 <==> (PairLoads(d) &&
      ((d.metadata.Metadata? && d.metadata.metrics.MetricsDict?) || (d.metadata.NoMetadata? && d.legacy.Legacy?)))
  {
  }

  /** A successful load marks the engine trained; a failed one leaves the
      flag as it was. */
  lemma LoadTrained(s: EngineState, d: ModelDir)
    ensures Load(s, d).1 ==> Load(s, d).0.isTrained
    ensures !Load(s, d).1 ==> Load(s, d).0.isTrained == s.isTrained
  {
  }

  /** Encoder and model come from the new format only when both pickles
      exist; otherwise only the legacy package touches them. */
  lemma PairOnlyWhenBoth(s: EngineState, d: ModelDir)
    requires !PairExists(d) && !(d.metadata.NoMetadata? && d.legacy.Legacy?)
    ensures Load(s, d).0.hasEncoder == s.hasEncoder && Load(s, d).0.hasModel == s.hasModel
  {
  }

  /** A metadata file is enough: with no pickle at all the engine reports a
      successful load and is marked trained, yet has neither encoder nor
      model, and then scores every pair it finds at 50. */
  lemma MetadataAloneLoads(t: Table, id1: int, id2: int, cosine: Foreign, proba: Foreign)
    requires HasId(t, id1) && HasId(t, id2)
    ensures var d := ModelDir(Missing, Missing, Metadata(None, None, MetricsDict(map[], None)), NoLegacy);
      var (s, ok) := Load(Untrained, d);
      ok && s.isTrained && !s.hasEncoder && !s.hasModel &&
      CompatibilidadAvanzada(s, t, id1, id2, cosine, proba).Ok? &&
      CompatibilidadAvanzada(s, t, id1, id2, cosine, proba).value.percentage == 50.0
  {
    var d := ModelDir(Missing, Missing, Metadata(None, None, MetricsDict(map[], None)), NoLegacy);
    UntrainedBlendsToFifty(Load(Untrained, d).0, t, id1, id2, cosine, proba);
  }

  /** The legacy format drops the encoder, maps `cross_val` to the mean and
      zeroes the deviation. */
  lemma LegacyLoad(s: EngineState, d: ModelDir)
    requires PairLoads(d) && d.metadata.NoMetadata? && d.legacy.Legacy?
    ensures var (s', ok) := Load(s, d);
      ok && !s'.hasEncoder && s'.hasModel == d.legacy.hasModel && s'.metrics.crossValStd == 0.0 &&
      (d.legacy.metricas.MetricsDict? ==> s'.metrics.crossValMean == GetOr(d.legacy.metricas.values, "cross_val", 0.0))
  {
  }

  /** With nothing on disk the load fails and changes nothing. */
  lemma NothingToLoad(s: EngineState)
    ensures Load(s, ModelDir(Missing, Missing, NoMetadata, NoLegacy)) == (s, false)
  {
  }

  /** The engine object: the fields `cargar_modelos` assigns. */
  class Engine {
    var hasEncoder: bool
    var hasModel: bool
    var isTrained: bool
    var featureNames: seq<string>
    var featureImportance: map<string, real>
    var metrics: ModelMetrics

    function Snap(): EngineState
      reads this
    {
      EngineState(hasEncoder, hasModel, isTrained, featureNames, featureImportance, metrics)
    }

    constructor ()
      ensures Snap() == Untrained
    {
      hasEncoder := false;
      hasModel := false;
      isTrained := false;
      featureNames := [];
      featureImportance := map[];
      metrics := DefaultMetrics;
    }

    /** `cargar_modelos`, step by step over the files in `dir`. */
    method CargarModelos(dir: ModelDir) returns (ok: bool)
      modifies this
      ensures (Snap(), ok) == Load(old(Snap()), dir)
    {
      if !dir.encoderPkl.Missing? && !dir.modelPkl.Missing? {
        if dir.encoderPkl.Corrupt? {
          return false;
        }
        hasEncoder := true;
        if dir.modelPkl.Corrupt? {
          return false;
        }
        hasModel := true;
      }
      match dir.metadata {
        case BadMetadata =>
          return false;
        case Metadata(names, importance, metricsField) =>
          featureNames := OptionOr(names, []);
          featureImportance := OptionOr(importance, map[]);
          if metricsField.NotADict? {
            return false;
          }
          metrics := MetricsFromMetadata(metricsField.values, metricsField.lastTraining);
          isTrained := true;
          return true;
        case NoMetadata =>
      }
      match dir.legacy {
        case Legacy(model, features, metricas) =>
          hasModel := model;
          hasEncoder := false;
          featureNames := OptionOr(features, []);
          metrics := MetricsFromLegacy(metricas);
          isTrained := true;
          return true;
        case _ =>
          return false;
      }
    }

    /** `analizar_sesgos_modelo` on this engine: the model's predictions
        (one per row, `None` when encoding or `predict` raises) and
        fairlearn's answer `fair` are inputs; labels come from
        `_preparar_datos`, the sensitive attributes from `genero` and the
        age bands. Any step that raises gives the error answer. Preparing
        the data installs a one-hot encoder when the engine has none, so
        the engine changes as `TrasAnalisis` says. */
    method AnalizarSesgosModelo(t: Table, predicted: Option<seq<int>>,
                                fair: EthicsMonitor.Attribute -> EthicsMonitor.FairnessDiffs)
      returns (r: Result<EthicsMonitor.BiasReport>)
      modifies this
      requires predicted.Some? ==> |predicted.value| == |t.records|
      ensures Snap() == TrasAnalisis(old(Snap()), t)
      ensures r.Ok? <==> Analizable(t, old(Snap()), predicted)
      ensures old(isTrained) && !old(hasModel) ==> r.Err?
      ensures r.Ok? ==> r.value.overallAccuracy == EthicsMonitor.OverallAccuracy(PrepararDatos(t).value.y, predicted.value)
      ensures r.Ok? ==> (r.value.biasDetected <==> SesgoDetectado(t, old(Snap()), predicted, fair))
      ensures r.Ok? ==> r.value.recommendations == NotasSesgo(t, old(Snap()), predicted, fair)
      ensures r.Ok? ==> var fs := SensitiveFeatures(t).value;
        EthicsMonitor.Recorded(r.value.groupsAnalysis, predicted.value, fs, Fairness(fs, fair), |fs|)
    {
      if IsEmpty(t) || !isTrained {
        return Err("Sin datos o modelo no entrenado");
      }
      if FeatureColumns(t.columns) != [] && !hasEncoder {
        hasEncoder := true;
      }
      var prepared := PrepararDatos(t);
      if prepared.Err? {
        return Err(prepared.msg);
      }
      if !hasModel || predicted.None? {
        return Err("predict raised");
      }
      var yPred := predicted.value;
      var features := SensitiveFeatures(t);
      if features.None? {
        return Err("pd.cut on a text age");
      }
      var fs := features.value;
      var report := EthicsMonitor.AnalyzeBias(prepared.value.y, yPred, fs, Fairness(fs, fair));
      return Ok(report);
    }

    /** `obtener_metricas_eticas` with the bias analysis run on the same
        frame: no bias, no compliance loss; detected bias is exactly what
        breaks compliance, and an analysis that raises reads as no bias.
        The engine changes as the analysis changes it. */
    method MetricasEticas(t: Table, predicted: Option<seq<int>>,
                          fair: EthicsMonitor.Attribute -> EthicsMonitor.FairnessDiffs)
      returns (r: Result<EthicsSummary>)
      modifies this
      requires predicted.Some? ==> |predicted.value| == |t.records|
      ensures Snap() == TrasAnalisis(old(Snap()), t)
      ensures r.Err? <==> IsEmpty(t)
      ensures r.Ok? ==> (r.value.biasStatus == "detected" <==> SesgoDetectado(t, old(Snap()), predicted, fair))
      ensures r.Ok? ==> (r.value.overallCompliance <==> !SesgoDetectado(t, old(Snap()), predicted, fair))
      ensures r.Ok? && !Analizable(t, old(Snap()), predicted) ==> r.value.biasStatus == "clear" && r.value.overallCompliance
      ensures r.Ok? ==> r.value.recommendations == NotasSesgo(t, old(Snap()), predicted, fair)
      ensures r.Ok? ==> r.value.privacyScore == 100.0 * EthicsMonitor.PrivacyReportOf(t.columns).value.anonymizationScore
    {
      if IsEmpty(t) {
        return Err("Sin datos para calcular métricas éticas");
      }
      var analysis := AnalizarSesgosModelo(t, predicted, fair);
      var bias := if analysis.Ok? then Some(analysis.value) else None;
      ComplianceIffNoBias(t, bias);
      r := ObtenerMetricasEticas(t, bias);
    }
  }

  // ---------------------------------------------------------------------
  // obtener_metricas_eticas
  // ---------------------------------------------------------------------

  datatype EthicsSummary = EthicsSummary(
    ethicsScore: real,
    biasStatus: string,
    privacyScore: real,
    overallCompliance: bool,
    recommendations: seq<EthicsMonitor.BiasNote>)

  /** The bias flag as read from `analizar_sesgos_modelo`'s answer; an error
      answer has no `bias_analysis` and reads as no bias. */
  function BiasFlag(bias: Option<EthicsMonitor.BiasReport>): bool
  {
    bias.Some? && bias.value.biasDetected
  }

  /** `obtener_metricas_eticas` on a frame and the bias analysis of it
      (`None` for an error answer): 100, minus 30 for bias, minus 20 for
      PII, floored at 0; compliance at 80. */
  function ObtenerMetricasEticas(t: Table, bias: Option<EthicsMonitor.BiasReport>): (r: Result<EthicsSummary>)
    ensures r.Err? <==> IsEmpty(t)
    ensures r.Ok? ==> 0.0 <= r.value.ethicsScore <= 100.0 && 0.0 <= r.value.privacyScore <= 100.0
    ensures r.Ok? ==> (r.value.biasStatus == "detected" <==> BiasFlag(bias))
    ensures r.Ok? ==> r.value.privacyScore == 100.0 * EthicsMonitor.PrivacyReportOf(t.columns).value.anonymizationScore
  {
    if IsEmpty(t) then Err("Sin datos para calcular métricas éticas")
    else
      var privacy := EthicsMonitor.PrivacyReportOf(t.columns).value;
      var score := 100.0 - (if BiasFlag(bias) then 30.0 else 0.0) - (if privacy.piiDetected then 20.0 else 0.0);
      Ok(EthicsSummary(
        if score < 0.0 then 0.0 else score,
        if BiasFlag(bias) then "detected" else "clear",
        privacy.anonymizationScore * 100.0,
        score >= 80.0,
        if bias.Some? then bias.value.recommendations else []))
  }

  /** Compliance holds exactly when no bias was detected: PII alone costs
      20 points and still leaves 80. */
  lemma ComplianceIffNoBias(t: Table, bias: Option<EthicsMonitor.BiasReport>)
    requires !IsEmpty(t)
    ensures ObtenerMetricasEticas(t, bias).value.overallCompliance <==> !BiasFlag(bias)
  {
  }

  /** The score is one of 100, 80, 70 and 50, and is full exactly without
      bias and without PII. */
  lemma EthicsScoreValues(t: Table, bias: Option<EthicsMonitor.BiasReport>)
    requires !IsEmpty(t)
    ensures var score := ObtenerMetricasEticas(t, bias).value.ethicsScore;
      (score == 100.0 || score == 80.0 || score == 70.0 || score == 50.0) &&
      (score == 100.0 <==> !BiasFlag(bias) && !(exists f :: f in EthicsMonitor.SensitiveFields && f in t.columns))
  {
  }

  // ---------------------------------------------------------------------
  // Age bands: pd.cut(edad, bins=[0, 25, 35, 100]).astype(str)
  // ---------------------------------------------------------------------

  /** The band of one age cell; `None` when the cell is text, on which
      `pd.cut` raises. Intervals are closed on the right; values outside
      (0, 100] and missing ages become "nan". */
  function AgeBand(v: Value): (r: Option<string>)
    ensures r.None? <==> v.Str?
  {
    match v
    case Str(_) => None
    case Null => Some("nan")
    case NaN => Some("nan")
    case Int(a) =>
      if 0 < a <= 25 then Some("<25")
      else if 25 < a <= 35 then Some("25-35")
      else if 35 < a <= 100 then Some(">35")
      else Some("nan")
  }

  /** The three bands partition (0, 100]; every other age is "nan". */
  lemma AgeBandsPartition(a: int)
    ensures AgeBand(Int(a)) == Some("<25") <==> 0 < a <= 25
    ensures AgeBand(Int(a)) == Some("25-35") <==> 25 < a <= 35
    ensures AgeBand(Int(a)) == Some(">35") <==> 35 < a <= 100
    ensures AgeBand(Int(a)) == Some("nan") <==> a <= 0 || a > 100
  {
  }

  function AgeBands(t: Table): (r: Option<seq<string>>)
    ensures r.Some? <==> forall i :: 0 <= i < |t.records| ==> AgeBand(Get(RowAt(t, i), "edad")).Some?
    ensures r.Some? ==> |r.value| == |t.records|
    ensures r.Some? ==> forall i :: 0 <= i < |t.records| ==> AgeBand(Get(RowAt(t, i), "edad")) == Some(r.value[i])
  {
    if forall i :: 0 <= i < |t.records| ==> AgeBand(Get(RowAt(t, i), "edad")).Some? then
      Some(seq(|t.records|, i requires 0 <= i < |t.records| => AgeBand(Get(RowAt(t, i), "edad")).value))
    else None
  }

  /** The sensitive attributes handed to `analyze_bias`: `genero` as it
      stands, `edad` as `grupo_edad`, each only when the column exists. */
  function SensitiveFeatures(t: Table): (r: Option<seq<EthicsMonitor.Attribute>>)
    ensures r.None? <==> "edad" in t.columns && AgeBands(t).None?
    ensures r.Some? ==> |r.value| == (if "genero" in t.columns then 1 else 0) + (if "edad" in t.columns then 1 else 0)
    ensures r.Some? ==> forall k :: 0 <= k < |r.value| ==> |r.value[k].1| == |t.records|
    ensures r.Some? ==> Distinct(EthicsMonitor.Names(r.value))
    ensures r.Some? && "genero" in t.columns ==> r.value[0].0 == "genero"
    ensures r.Some? && "genero" in t.columns ==>
      forall i :: 0 <= i < |t.records| ==> r.value[0].1[i] == Display(Get(RowAt(t, i), "genero"))
    ensures r.Some? && "edad" in t.columns ==> r.value[|r.value| - 1] == ("grupo_edad", AgeBands(t).value)
  {
    var genero: seq<EthicsMonitor.Attribute> :=
      if "genero" in t.columns then
        [("genero", seq(|t.records|, i requires 0 <= i < |t.records| => Display(Get(RowAt(t, i), "genero"))))]
      else [];
    if "edad" !in t.columns then Some(genero)
    else match AgeBands(t)
      case None => None
      case Some(bands) => Some(genero + [("grupo_edad", bands)])
  }

  // ---------------------------------------------------------------------
  // analizar_sesgos_modelo and the ethics summary it feeds
  // ---------------------------------------------------------------------

  /** fairlearn's answer for each attribute, the labels and predictions
      being fixed. */
  function Fairness(features: seq<EthicsMonitor.Attribute>, fair: EthicsMonitor.Attribute -> EthicsMonitor.FairnessDiffs)
    : (r: seq<EthicsMonitor.FairnessDiffs>)
    ensures |r| == |features|
    ensures forall k :: 0 <= k < |features| ==> r[k] == fair(features[k])
  {
    seq(|features|, k requires 0 <= k < |features| => fair(features[k]))
  }

  /** The engine after `analizar_sesgos_modelo` ran on `t`: past the
      empty and untrained checks, `_preparar_datos` installs a one-hot
      encoder when none is set and the frame has feature columns. The
      encoder is assigned before it is fitted, so it stays installed when
      the labels then fail to cast. Nothing else the rules read changes. */
  function TrasAnalisis(s: EngineState, t: Table): (r: EngineState)
    ensures r.hasEncoder == (s.hasEncoder || (!IsEmpty(t) && s.isTrained && FeatureColumns(t.columns) != []))
    ensures r.(hasEncoder := s.hasEncoder) == s
  {
    if !IsEmpty(t) && s.isTrained && FeatureColumns(t.columns) != [] then s.(hasEncoder := true) else s
  }

  /** An engine loaded with a model but no encoder (the legacy package)
      fails every pair score; once a bias analysis has run on a frame with
      feature columns it holds an encoder, and the pair score then answers
      whenever the foreign similarity and probability do. */
  lemma AnalysisInstallsEncoder(s: EngineState, t: Table, t2: Table, id1: int, id2: int, cosine: Foreign, proba: Foreign)
    requires s.hasModel && !s.hasEncoder && s.isTrained
    requires !IsEmpty(t) && FeatureColumns(t.columns) != []
    ensures CompatibilidadAvanzada(s, t2, id1, id2, cosine, proba).Err?
    ensures TrasAnalisis(s, t).hasEncoder
    ensures cosine.Gives? && proba.Gives? ==>
      Similarity(TrasAnalisis(s, t), cosine) == Some(cosine.x) && Prediction(TrasAnalisis(s, t), proba) == Some(proba.x)
  {
    ModelWithoutEncoderFails(s, t2, id1, id2, cosine, proba);
  }

  /** The bias analysis answers with a report, not an error: data, a
      trained engine that holds a model, labels that cast, predictions the
      model gives (`None` when encoding the frame or `predict` raises), and
      age bands that can be cut. An engine loaded from metadata alone is
      trained but holds no model, and `predict` then raises. */
  predicate Analizable(t: Table, s: EngineState, predicted: Option<seq<int>>)
  {
    !IsEmpty(t) && s.isTrained && s.hasModel && PrepararDatos(t).Ok? && predicted.Some? && SensitiveFeatures(t).Some?
  }

  /** The report of an analysable frame flags bias: some sensitive
      attribute's demographic-parity difference exceeds the threshold. */
  predicate SesgoDetectado(t: Table, s: EngineState, predicted: Option<seq<int>>,
                           fair: EthicsMonitor.Attribute -> EthicsMonitor.FairnessDiffs)
  {
    Analizable(t, s, predicted) &&
    var fs := SensitiveFeatures(t).value;
    EthicsMonitor.AnyFlagged(predicted.value, fs, Fairness(fs, fair), |fs|)
  }

  /** The recommendations of an analysable frame, one per flagged attribute. */
  function NotasSesgo(t: Table, s: EngineState, predicted: Option<seq<int>>,
                      fair: EthicsMonitor.Attribute -> EthicsMonitor.FairnessDiffs)
    : (r: seq<EthicsMonitor.BiasNote>)
    ensures |r| <= 2
    ensures |r| > 0 ==> SesgoDetectado(t, s, predicted, fair)
  {
    if Analizable(t, s, predicted) then
      var fs := SensitiveFeatures(t).value;
      EthicsMonitor.BiasNotesFlagged(predicted.value, fs, Fairness(fs, fair));
      EthicsMonitor.BiasNotes(predicted.value, fs, Fairness(fs, fair))
    else []
  }

  /** An engine loaded from a metadata file alone is trained without a
      model, so its bias analysis is an error and its summary is compliant. */
  lemma MetadataAloneAnalysisFails(t: Table, d: ModelDir, predicted: Option<seq<int>>,
                                   fair: EthicsMonitor.Attribute -> EthicsMonitor.FairnessDiffs)
    requires d.encoderPkl.Missing? && d.modelPkl.Missing? && d.metadata.Metadata? && d.metadata.metrics.MetricsDict?
    ensures Load(Untrained, d).0.isTrained && !Load(Untrained, d).0.hasModel
    ensures !Analizable(t, Load(Untrained, d).0, predicted)
    ensures !SesgoDetectado(t, Load(Untrained, d).0, predicted, fair)
  {
  }
}
