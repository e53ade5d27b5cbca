/** Post-processing of `ModelExplainer`: impact entries ranked and split
    into favourable and unfavourable factors, the importance-based fallback
    explanation, the natural-language explanation, humanised feature names,
    the factor-by-factor comparison of two residents, global importance
    ranks and patterns, and the model insights. SHAP values, predictions,
    probabilities and feature importances are inputs. */
module ModelExplainer {
  import opened Common
  import opened Sorting

  // ---------------------------------------------------------------------
  // _humanize_feature_name
  // ---------------------------------------------------------------------

  /** The `humanized_names` dictionary, in its insertion order. */
  const HumanizedNames: seq<(string, string)> := [
    ("fumador_no", "Ambos no fumadores"),
    ("fumador_si", "Al menos uno fuma"),
    ("orden_ordenada", "Preferencia por orden y limpieza"),
    ("orden_desordenada", "Más relajados con el orden"),
    ("mascotas_sin mascotas", "Sin mascotas"),
    ("mascotas_con mascotas", "Con mascotas"),
    ("deporte_si", "Estilo de vida activo/deportivo"),
    ("deporte_no", "Menos orientados al deporte"),
    ("bioritmo_madrugador", "Horarios matutinos"),
    ("bioritmo_nocturno", "Horarios nocturnos"),
    ("visitas_si", "Reciben visitas frecuentes"),
    ("visitas_no", "Pocas visitas"),
    ("instrumento_si", "Tocan algún instrumento"),
    ("genero_masculino", "Género masculino"),
    ("genero_femenino", "Género femenino"),
    ("edad", "Compatibilidad de edad")]

  /** The first entry of `table` whose key occurs in `lowered`. */
  function Humanize(table: seq<(string, string)>, lowered: string, name: string): string
    decreases |table|, lowered
  {
    if table == [] then Title(ReplaceChar(name, '_', ' '))
    else if Contains(lowered, table[0].0) then table[0].1
    else Humanize(table[1..], lowered, name)
  }

  /** `_humanize_feature_name`: the value of the first key, in table order,
      contained in the lower-cased name; otherwise the name with `_` turned
      into spaces, title-cased. */
  function HumanizeFeatureName(name: string): string
  {
    Humanize(HumanizedNames, Lower(name), name)
  }

  lemma {:induction false} HumanizeFirst(table: seq<(string, string)>, lowered: string, name: string, k: nat)
    requires k < |table| && Contains(lowered, table[k].0)
    requires forall j :: 0 <= j < k ==> !Contains(lowered, table[j].0)
    ensures Humanize(table, lowered, name) == table[k].1
    decreases k
  {
    if k > 0 {
      assert !Contains(lowered, table[0].0);
      assert forall j :: 0 <= j < k - 1 ==> table[1..][j] == table[j + 1];
      HumanizeFirst(table[1..], lowered, name, k - 1);
    }
  }

  lemma {:induction false} HumanizeNone(table: seq<(string, string)>, lowered: string, name: string)
    requires forall j :: 0 <= j < |table| ==> !Contains(lowered, table[j].0)
    ensures Humanize(table, lowered, name) == Title(ReplaceChar(name, '_', ' '))
    decreases |table|
  {
    if table != [] {
      assert !Contains(lowered, table[0].0);
      assert forall j :: 0 <= j < |table| - 1 ==> table[1..][j] == table[j + 1];
      HumanizeNone(table[1..], lowered, name);
    }
  }

  /** The first key in table order that occurs in the lower-cased name
      decides the humanised name. */
  lemma HumanizeFirstMatch(name: string, k: nat)
    requires k < |HumanizedNames| && Contains(Lower(name), HumanizedNames[k].0)
    requires forall j :: 0 <= j < k ==> !Contains(Lower(name), HumanizedNames[j].0)
    ensures HumanizeFeatureName(name) == HumanizedNames[k].1
  {
    HumanizeFirst(HumanizedNames, Lower(name), name, k);
  }

  /** A name containing no key is title-cased with `_` read as a space;
      it keeps its length except that every word-initial 'ß' becomes "Ss". */
  lemma HumanizeFallback(name: string)
    requires forall j :: 0 <= j < |HumanizedNames| ==> !Contains(Lower(name), HumanizedNames[j].0)
    ensures HumanizeFeatureName(name) == Title(ReplaceChar(name, '_', ' '))
    ensures |HumanizeFeatureName(name)| == |name| + SharpStarts(ReplaceChar(name, '_', ' '), false)
    ensures (forall k :: 0 <= k < |name| ==> name[k] != 'ß') ==> |HumanizeFeatureName(name)| == |name|
  {
    HumanizeNone(HumanizedNames, Lower(name), name);
  }

  /** The first one-hot column reads as its table entry. */
  lemma HumanizeSmoker()
    ensures HumanizeFeatureName("fumador_no") == "Ambos no fumadores"
  {
    assert Lower("fumador_no") == "fumador_no";
    ContainsSelf("fumador_no");
  }

  // ---------------------------------------------------------------------
  // explain_prediction: impacts, ranking and the two factor lists
  // ---------------------------------------------------------------------

  datatype Impact = Impact(feature: string, impact: real, direction: string, magnitude: real, value: real)

  /** One entry of `feature_impacts`. */
  function ImpactOf(feature: string, impact: real, value: real): (e: Impact)
    ensures e.feature == feature && e.impact == impact && e.value == value
    ensures e.direction == "positivo" <==> impact > 0.0
    ensures e.direction == "positivo" || e.direction == "negativo"
    ensures e.magnitude >= 0.0 && (e.magnitude == impact || e.magnitude == -impact)
  {
    Impact(feature, impact, if impact > 0.0 then "positivo" else "negativo", Abs(impact), value)
  }

  function Magnitude(e: Impact): real { e.magnitude }
  function IsPositive(e: Impact): bool { e.impact > 0.0 }
  function IsNegative(e: Impact): bool { e.impact < 0.0 }

  function Min3(a: nat, b: nat, c: nat): nat
  {
    if a <= b && a <= c then a else if b <= c then b else c
  }

  /** `zip(feature_names, shap_values, x)`, one impact per position of the
      shortest. */
  function Impacts(names: seq<string>, shap: seq<real>, x: seq<real>): (r: seq<Impact>)
    ensures |r| == Min3(|names|, |shap|, |x|)
    ensures forall i :: 0 <= i < |r| ==> r[i] == ImpactOf(names[i], shap[i], x[i])
  {
    seq(Min3(|names|, |shap|, |x|), i requires 0 <= i < Min3(|names|, |shap|, |x|) => ImpactOf(names[i], shap[i], x[i]))
  }

  /** The impact loop of `explain_prediction`. */
  method BuildImpacts(names: seq<string>, shap: seq<real>, x: seq<real>) returns (impacts: seq<Impact>)
    ensures impacts == Impacts(names, shap, x)
  {
    impacts := [];
    var n := Min3(|names|, |shap|, |x|);
    var i := 0;
    while i < n
      invariant 0 <= i <= n
      invariant |impacts| == i
      invariant forall k :: 0 <= k < i ==> impacts[k] == ImpactOf(names[k], shap[k], x[k])
    {
      impacts := impacts + [ImpactOf(names[i], shap[i], x[i])];
      i := i + 1;
    }
  }

  /** The favourable and unfavourable factors: the positive and the
      negative impacts among the five largest magnitudes. */
  function TopPositive(ranked: seq<Impact>): seq<Impact> { Filter(Take(ranked, 5), IsPositive) }
  function TopNegative(ranked: seq<Impact>): seq<Impact> { Filter(Take(ranked, 5), IsNegative) }

  /** The two lists hold at most five entries together, no entry with zero
      impact, and only entries of the input. */
  lemma TopFactors(impacts: seq<Impact>)
    ensures var ranked := SortDesc(impacts, Magnitude);
      |TopPositive(ranked)| + |TopNegative(ranked)| <= 5 &&
      (forall e :: e in TopPositive(ranked) ==> e.impact > 0.0 && e in impacts) &&
      (forall e :: e in TopNegative(ranked) ==> e.impact < 0.0 && e in impacts)
  {
    var ranked := SortDesc(impacts, Magnitude);
    var top := Take(ranked, 5);
    FilterDisjoint(top, IsPositive, IsNegative);
    FilterMembers(top, IsPositive);
    FilterMembers(top, IsNegative);
    forall e | e in top ensures e in impacts {
      var i :| 0 <= i < |top| && top[i] == e;
      InMultiset(impacts, ranked, i);
    }
  }

  /** Nothing in the two lists is smaller in magnitude than an impact left
      out of the top five. */
  lemma TopFactorsDominate(impacts: seq<Impact>)
    ensures var ranked := SortDesc(impacts, Magnitude);
      forall e, j :: e in TopPositive(ranked) + TopNegative(ranked) && 5 <= j < |ranked| ==> e.magnitude >= ranked[j].magnitude
  {
    var ranked := SortDesc(impacts, Magnitude);
    var top := Take(ranked, 5);
    FilterMembers(top, IsPositive);
    FilterMembers(top, IsNegative);
    SortDescSorted(impacts, Magnitude);
    forall e, j | e in TopPositive(ranked) + TopNegative(ranked) && 5 <= j < |ranked|
      ensures e.magnitude >= ranked[j].magnitude
    {
      assert e in top;
      var i :| 0 <= i < |top| && top[i] == e;
      PrefixDominates(ranked, Magnitude, 5, i, j);
    }
  }

  // ---------------------------------------------------------------------
  // _generate_human_explanation
  // ---------------------------------------------------------------------

  const HighHeader: string := "🔮 La IA predice ALTA compatibilidad porque:"
  const LowHeader: string := "🔮 La IA predice BAJA compatibilidad porque:"
  const FavourableHeader: string := "✅ Factores favorables:"
  const ConflictHeader: string := "⚠️ Aspectos que pueden generar conflictos:"
  const AdviceHeader: string := "💡 Recomendación:"
  const GoodAdvice: string := "   Es una buena combinación. Consideren establecer reglas claras de convivencia."
  const TalkAdvice: string := "   Hablen sobre expectativas y hábitos antes de decidir."

  function Bullet(e: Impact): string
  {
    "   • " + HumanizeFeatureName(e.feature)
  }

  function Bullets(factors: seq<Impact>): (r: seq<string>)
    ensures |r| == |factors|
  {
    if factors == [] then [] else Bullets(factors[..|factors| - 1]) + [Bullet(factors[|factors| - 1])]
  }

  function Section(header: string, factors: seq<Impact>): seq<string>
  {
    if factors == [] then [] else [header] + Bullets(Take(factors, 3))
  }

  /** The lines of `_generate_human_explanation`. */
  function HumanLines(pos: seq<Impact>, neg: seq<Impact>): seq<string>
  {
    [if |pos| > |neg| then HighHeader else LowHeader]
      + Section(FavourableHeader, pos) + Section(ConflictHeader, neg)
      + [AdviceHeader, if |pos| > |neg| then GoodAdvice else TalkAdvice]
  }

  /** The header predicts ALTA exactly when there are more favourable than
      unfavourable factors, the closing advice agrees with it, and each
      side lists at most three factors. */
  lemma HumanLinesShape(pos: seq<Impact>, neg: seq<Impact>)
    ensures var lines := HumanLines(pos, neg);
      (lines[0] == HighHeader <==> |pos| > |neg|) &&
      (lines[|lines| - 1] == GoodAdvice <==> lines[0] == HighHeader) &&
      |lines| == 3 + (if pos == [] then 0 else 1 + Min(3, |pos|)) + (if neg == [] then 0 else 1 + Min(3, |neg|))
  {
  }

  /** `_generate_human_explanation`: append the lines, join them with
      newlines. */
  method GenerateHumanExplanation(pos: seq<Impact>, neg: seq<Impact>) returns (text: string)
    ensures text == Join(HumanLines(pos, neg), "\n")
  {
    var parts := [if |pos| > |neg| then HighHeader else LowHeader];
    parts := AppendSection(parts, FavourableHeader, pos);
    parts := AppendSection(parts, ConflictHeader, neg);
    parts := parts + [AdviceHeader, if |pos| > |neg| then GoodAdvice else TalkAdvice];
    text := Join(parts, "\n");
  }

  /** One `if factors:` block: the header, then a bullet for each of the
      first three factors. */
  method AppendSection(parts: seq<string>, header: string, factors: seq<Impact>) returns (r: seq<string>)
    ensures r == parts + Section(header, factors)
  {
    r := parts;
    if factors != [] {
      r := AppendBullets(r + [header], Take(factors, 3));
    }
  }

  method AppendBullets(parts: seq<string>, factors: seq<Impact>) returns (r: seq<string>)
    ensures r == parts + Bullets(factors)
  {
    r := parts;
    var i := 0;
    while i < |factors|
      invariant 0 <= i <= |factors|
      invariant r == parts + Bullets(factors[..i])
    {
      assert factors[..i + 1][..i] == factors[..i];
      r := r + [Bullet(factors[i])];
      i := i + 1;
    }
    assert factors[..i] == factors;
  }

  // ---------------------------------------------------------------------
  // _simple_explanation
  // ---------------------------------------------------------------------

  /** The compatibility model as the explainer sees it: absent, or present
      with or without `feature_importances_`. */
  datatype ModelKind = NoModel | Model(importances: Option<seq<real>>)

  datatype Ranking = Ranking(feature: string, importance: real, value: real)

  function Importance(r: Ranking): real { r.importance }

  function Rankings(names: seq<string>, importances: seq<real>, x: seq<real>): (r: seq<Ranking>)
    ensures |r| == Min3(|names|, |importances|, |x|)
    ensures forall i :: 0 <= i < |r| ==> r[i] == Ranking(names[i], importances[i], x[i])
  {
    seq(Min3(|names|, |importances|, |x|), i requires 0 <= i < Min3(|names|, |importances|, |x|) =>
      Ranking(names[i], importances[i], x[i]))
  }

  /** The ranking loop of `_simple_explanation`. */
  method BuildRankings(names: seq<string>, importances: seq<real>, x: seq<real>) returns (rankings: seq<Ranking>)
    ensures rankings == Rankings(names, importances, x)
  {
    rankings := [];
    var n := Min3(|names|, |importances|, |x|);
    var i := 0;
    while i < n
      invariant 0 <= i <= n
      invariant |rankings| == i
      invariant forall k :: 0 <= k < i ==> rankings[k] == Ranking(names[k], importances[k], x[k])
    {
      rankings := rankings + [Ranking(names[i], importances[i], x[i])];
      i := i + 1;
    }
  }

  datatype SimpleExplanation =
    | SimpleError(msg: string)
    | NoImportance
    | ByImportance(prediction: int, confidence: real, topFactors: seq<Ranking>, human: string)

  /** `_simple_explanation`; `predicted` is the model's class and top
      probability for the instance, `None` when predicting raises. */
  function SimpleExplanationOf(model: ModelKind, names: seq<string>, x: seq<real>, predicted: Option<(int, real)>): (r: SimpleExplanation)
    ensures model.NoModel? ==> r == SimpleError("Modelo no disponible")
    ensures model.Model? && model.importances.None? ==> r.NoImportance?
    ensures r.ByImportance? ==> (model.Model? && model.importances.Some? && predicted.Some? &&
      r.prediction == predicted.value.0 && r.confidence == predicted.value.1)
    ensures r.ByImportance? ==> 1 <= |r.topFactors| <= 8 && SortedDesc(r.topFactors, Importance)
    ensures r.ByImportance? ==> |r.topFactors| == Min(8, Min3(|names|, |model.importances.value|, |x|))
    ensures r.ByImportance? ==> multiset(r.topFactors) <= multiset(Rankings(names, model.importances.value, x))
    ensures r.ByImportance? ==> r.human == "Predicción basada en " + r.topFactors[0].feature + " y otros factores clave"
    ensures model.Model? && model.importances.Some? && predicted.Some? ==>
      (r.ByImportance? <==> Min3(|names|, |model.importances.value|, |x|) > 0)
  {
    match model
    case NoModel => SimpleError("Modelo no disponible")
    case Model(None) => NoImportance
    case Model(Some(importances)) =>
      match predicted
      case None => SimpleError("prediction failed")
      case Some((prediction, confidence)) =>
        var ranked := SortDesc(Rankings(names, importances, x), Importance);
        SortDescSorted(Rankings(names, importances, x), Importance);
        TakeSubMultiset(ranked, 8);
        if ranked == [] then SimpleError("list index out of range")
        else ByImportance(prediction, confidence, Take(ranked, 8),
          "Predicción basada en " + ranked[0].feature + " y otros factores clave")
  }

  /** The factors shown are the eight most important ones: every feature
      left out weighs no more than any feature shown. */
  lemma SimpleTopDominates(importances: seq<real>, names: seq<string>, x: seq<real>, p: (int, real), i: nat, j: nat)
    requires SimpleExplanationOf(Model(Some(importances)), names, x, Some(p)).ByImportance?
    requires var ranked := SortDesc(Rankings(names, importances, x), Importance); i < 8 <= j < |ranked|
    ensures var ranked := SortDesc(Rankings(names, importances, x), Importance);
      SimpleExplanationOf(Model(Some(importances)), names, x, Some(p)).topFactors[i].importance >= ranked[j].importance
  {
    var ranked := SortDesc(Rankings(names, importances, x), Importance);
    SortDescSorted(Rankings(names, importances, x), Importance);
    PrefixDominates(ranked, Importance, 8, i, j);
  }

  // ---------------------------------------------------------------------
  // The explainer object
  // ---------------------------------------------------------------------

  datatype Explanation =
    | Shap(confidence: real, positive: seq<Impact>, negative: seq<Impact>, all: seq<Impact>, human: string)
    | Simple(simple: SimpleExplanation)

  /** `explain_prediction` as a value: SHAP when an explainer exists and
      neither SHAP nor `predict_proba` raises, the simple explanation
      otherwise. */
  function ExplanationOf(hasExplainer: bool, model: ModelKind, names: seq<string>, x: seq<real>,
                         shap: Option<seq<real>>, confidence: Option<real>, predicted: Option<(int, real)>): (e: Explanation)
    ensures !hasExplainer || shap.None? || confidence.None? ==> e == Simple(SimpleExplanationOf(model, names, x, predicted))
    ensures hasExplainer && shap.Some? && confidence.Some? ==> e.Shap? && e.confidence == confidence.value
    ensures e.Shap? ==> multiset(e.all) == multiset(Impacts(names, shap.value, x)) && SortedDesc(e.all, Magnitude)
    ensures e.Shap? ==> forall k :: WithKey(e.all, Magnitude, k) == WithKey(Impacts(names, shap.value, x), Magnitude, k)
    ensures e.Shap? ==> e.positive == TopPositive(e.all) && e.negative == TopNegative(e.all)
    ensures e.Shap? ==> e.human == Join(HumanLines(e.positive, e.negative), "\n")
  {
    if !hasExplainer || shap.None? || confidence.None? then Simple(SimpleExplanationOf(model, names, x, predicted))
    else
      var ranked := SortDesc(Impacts(names, shap.value, x), Magnitude);
      SortDescSorted(Impacts(names, shap.value, x), Magnitude);
      StableOnAllTies(Impacts(names, shap.value, x), Magnitude);
      var pos := TopPositive(ranked);
      var neg := TopNegative(ranked);
      Shap(confidence.value, pos, neg, ranked, Join(HumanLines(pos, neg), "\n"))
  }

  class Explainer {
    var model: ModelKind
    var featureNames: seq<string>
    var hasExplainer: bool

    constructor (model: ModelKind, featureNames: seq<string>)
      ensures this.model == model && this.featureNames == featureNames && !hasExplainer
    {
      this.model := model;
      this.featureNames := featureNames;
      hasExplainer := false;
    }

    /** `initialize_explainer`: nothing without a model; otherwise the
      explainer exists unless building it raises (`shapBuilds` false). */
    method InitializeExplainer(shapBuilds: bool) returns (ok: bool)
      modifies this
      ensures ok <==> model.Model? && shapBuilds
      ensures hasExplainer == (old(hasExplainer) || ok)
      ensures model == old(model) && featureNames == old(featureNames)
    {
      if model.NoModel? {
        return false;
      }
      if !shapBuilds {
        return false;
      }
      hasExplainer := true;
      return true;
    }

    /** `_simple_explanation` on the current model. */
    method SimpleExplanation(x: seq<real>, predicted: Option<(int, real)>) returns (r: SimpleExplanation)
      ensures r == SimpleExplanationOf(model, featureNames, x, predicted)
    {
      match model {
        case NoModel =>
          return SimpleError("Modelo no disponible");
        case Model(importances) =>
          if importances.None? {
            return NoImportance;
          }
          if predicted.None? {
            return SimpleError("prediction failed");
          }
          var rankings := BuildRankings(featureNames, importances.value, x);
          rankings := SortDesc(rankings, Importance);
          if rankings == [] {
            return SimpleError("list index out of range");
          }
          return ByImportance(predicted.value.0, predicted.value.1, Take(rankings, 8),
            "Predicción basada en " + rankings[0].feature + " y otros factores clave");
      }
    }

    /** `explain_prediction`: `shap` and `confidence` are the SHAP vector
      and the class-1 probability, `None` when computing them raises. */
    method ExplainPrediction(x: seq<real>, shap: Option<seq<real>>, confidence: Option<real>, predicted: Option<(int, real)>)
      returns (e: Explanation)
      ensures e == ExplanationOf(hasExplainer, model, featureNames, x, shap, confidence, predicted)
    {
      if !hasExplainer || shap.None? || confidence.None? {
        var simple := SimpleExplanation(x, predicted);
        return Simple(simple);
      }
      var impacts := BuildImpacts(featureNames, shap.value, x);
      impacts := SortDesc(impacts, Magnitude);
      var pos := Filter(Take(impacts, 5), IsPositive);
      var neg := Filter(Take(impacts, 5), IsNegative);
      var human := GenerateHumanExplanation(pos, neg);
      return Shap(confidence.value, pos, neg, impacts, human);
    }

    /** `generate_global_explanations`; `diffs` are the differences of the
      class means, `None` when one class has no sample. */
    method GenerateGlobalExplanations(diffs: Option<seq<real>>) returns (g: GlobalExplanation)
      ensures model.NoModel? <==> g.GlobalError?
      ensures g.Global? ==> EntriesOf(SortDesc(ImportanceTable(model, featureNames), ItemImportance), g.importance)
      ensures g.Global? ==> RanksOf(SortDesc(ImportanceTable(model, featureNames), ItemImportance), g.importance)
      ensures g.Global? ==> (g.high, g.low) == Patterns(featureNames, diffs)
      ensures g.Global? ==> g.insights == ModelInsights(ImportanceTable(model, featureNames))
    {
      if model.NoModel? {
        return GlobalError("Modelo no disponible");
      }
      var d: seq<(string, real)> := [];
      if model.importances.Some? {
        d := BuildImportanceDict(Zip(featureNames, model.importances.value));
      }
      SortedKeysDistinct(d);
      var importance := RankEntries(SortDesc(d, ItemImportance));
      EntriesRanks(SortDesc(d, ItemImportance), importance);
      var high, low := [], [];
      if diffs.Some? {
        high, low := CollectPatterns(featureNames, diffs.value);
        high, low := Take(high, 5), Take(low, 5);
      }
      var insights := GenerateModelInsights(d);
      return Global(importance, high, low, insights);
    }
  }

  /** The zip loop filling `global_importance`. */
  method BuildImportanceDict(items: seq<(string, real)>) returns (d: seq<(string, real)>)
    ensures d == ImportanceDict(items)
  {
    d := [];
    var i := 0;
    while i < |items|
      invariant 0 <= i <= |items|
      invariant d == ImportanceDict(items[..i])
    {
      assert items[..i + 1][..i] == items[..i];
      d := Assign(d, items[i].0, items[i].1);
      i := i + 1;
    }
    assert items[..i] == items;
  }

  /** The loop over the class-mean differences. */
  method CollectPatterns(names: seq<string>, diffs: seq<real>) returns (high: seq<Pattern>, low: seq<Pattern>)
    ensures high == HighPatterns(names, diffs) && low == LowPatterns(names, diffs)
  {
    high, low := [], [];
    var i := 0;
    while i < |diffs|
      invariant 0 <= i <= |diffs|
      invariant high == HighPatterns(names, diffs[..i]) && low == LowPatterns(names, diffs[..i])
    {
      assert diffs[..i + 1][..i] == diffs[..i];
      if i < |names| {
        var feature := names[i];
        if diffs[i] > 0.1 {
          high := high + [Pattern(feature, HumanizeFeatureName(feature), diffs[i])];
        } else if diffs[i] < -0.1 {
          low := low + [Pattern(feature, HumanizeFeatureName(feature), Abs(diffs[i]))];
        }
      }
      i := i + 1;
    }
    assert diffs[..i] == diffs;
  }

  // ---------------------------------------------------------------------
  // explain_compatibility_factors
  // ---------------------------------------------------------------------

  const KeyFactors: seq<string> := ["fumador", "mascotas", "orden", "deporte", "bioritmo", "visitas"]
  const HighImpactFactors: seq<string> := ["fumador", "orden", "bioritmo"]

  datatype FactorComparison = FactorComparison(factor: string, value1: string, value2: string, compatible: bool, impact: string)

  function Comparison(r1: Row, r2: Row, factor: string): FactorComparison
  {
    var v1 := Get(r1, factor);
    var v2 := Get(r2, factor);
    FactorComparison(Title(factor), Display(v1), Display(v2), PyEq(v1, v2),
      if factor in HighImpactFactors then "Alto" else "Medio")
  }

  /** The comparisons for the factors both rows carry, in factor order. */
  function Comparisons(r1: Row, r2: Row, factors: seq<string>): (r: seq<FactorComparison>)
    ensures |r| <= |factors|
    decreases |factors|
  {
    if factors == [] then []
    else
      var f := factors[|factors| - 1];
      Comparisons(r1, r2, factors[..|factors| - 1])
        + (if Has(r1, f) && Has(r2, f) then [Comparison(r1, r2, f)] else [])
  }

  function CountCompatible(c: seq<FactorComparison>): (n: nat)
    ensures n <= |c|
  {
    if c == [] then 0 else (if c[0].compatible then 1 else 0) + CountCompatible(c[1..])
  }

  lemma {:induction false} CountCompatibleAppend(a: seq<FactorComparison>, b: seq<FactorComparison>)
    ensures CountCompatible(a + b) == CountCompatible(a) + CountCompatible(b)
    decreases |a|
  {
    if a == [] {
      assert a + b == b;
    } else {
      assert (a + b)[0] == a[0] && (a + b)[1..] == a[1..] + b;
      CountCompatibleAppend(a[1..], b);
    }
  }

  const Excellent: string := "🎯 Excelente compatibilidad en la mayoría de aspectos clave"
  const Moderate: string := "👍 Compatibilidad moderada, algunos aspectos a considerar"
  const Low: string := "⚠️ Baja compatibilidad, recomendable evaluar otros candidatos"

  function Summary(score: real): string
  {
    if score >= 75.0 then Excellent else if score >= 50.0 then Moderate else Low
  }

  /** `compatible_count / len(key_factors) * 100`: always over six. */
  function FactorScore(count: nat): real
  {
    (count as real) / 6.0 * 100.0
  }

  /** Five matches out of six are excellent, three moderate. */
  lemma SummaryThresholds(count: nat)
    requires count <= 6
    ensures Summary(FactorScore(count)) == Excellent <==> count >= 5
    ensures Summary(FactorScore(count)) == Moderate <==> count == 3 || count == 4
    ensures 0.0 <= FactorScore(count) <= 100.0
  {
  }

  datatype FactorsReport = FactorsReport(
    id1: int, name1: Value, id2: int, name2: Value,
    comparisons: seq<FactorComparison>, score: real, summary: string)

  /** `row.get('nombre', default)` */
  function NameOr(r: Row, default: string): Value
  {
    if Has(r, "nombre") then Get(r, "nombre") else Str(default)
  }

  function FactorsReportOf(t: Table, id1: int, id2: int): (r: Result<FactorsReport>)
    ensures r.Ok? <==> HasId(t, id1) && HasId(t, id2)
    ensures r.Ok? ==> 0.0 <= r.value.score <= 100.0 && r.value.summary == Summary(r.value.score)
    ensures r.Ok? ==> |r.value.comparisons| <= 6
  {
    match (FindRow(t, id1), FindRow(t, id2))
    case (Some(i), Some(j)) =>
      var r1 := RowAt(t, i);
      var r2 := RowAt(t, j);
      var c := Comparisons(r1, r2, KeyFactors);
      var score := FactorScore(CountCompatible(c));
      Ok(FactorsReport(id1, NameOr(r1, "Inquilino 1"), id2, NameOr(r2, "Inquilino 2"), c, score, Summary(score)))
    case _ => Err("single positional indexer is out-of-bounds")
  }

  /** A factor the frame lacks can never match, so a frame with only some
      of the six key columns scores at most their share of 100. */
  lemma MissingFactorsCapScore(t: Table, id1: int, id2: int)
    requires FactorsReportOf(t, id1, id2).Ok?
    ensures FactorsReportOf(t, id1, id2).value.score <= FactorScore(|PresentFactors(KeyFactors, t.columns)|)
  {
    var i, j := FindRow(t, id1).value, FindRow(t, id2).value;
    var r1, r2 := RowAt(t, i), RowAt(t, j);
    var c := Comparisons(r1, r2, KeyFactors);
    assert FactorsReportOf(t, id1, id2).value.score == FactorScore(CountCompatible(c));
    ComparisonsWithin(r1, r2, KeyFactors, t.columns);
  }

  /** The factors that are columns of the frame, in factor order. */
  function PresentFactors(factors: seq<string>, columns: seq<string>): seq<string>
  {
    if factors == [] then []
    else
      var f := factors[|factors| - 1];
      PresentFactors(factors[..|factors| - 1], columns) + (if f in columns then [f] else [])
  }

  lemma {:induction false} ComparisonsWithin(r1: Row, r2: Row, factors: seq<string>, columns: seq<string>)
    requires r1.index == columns
    ensures |Comparisons(r1, r2, factors)| <= |PresentFactors(factors, columns)|
    decreases |factors|
  {
    if factors != [] {
      ComparisonsWithin(r1, r2, factors[..|factors| - 1], columns);
    }
  }

  /** One more factor adds its comparison when both rows carry it. */
  lemma CompareStep(row1: Row, row2: Row, factors: seq<string>, k: nat)
    requires k < |factors|
    ensures Comparisons(row1, row2, factors[..k + 1])
      == Comparisons(row1, row2, factors[..k])
        + (if Has(row1, factors[k]) && Has(row2, factors[k]) then [Comparison(row1, row2, factors[k])] else [])
  {
    assert factors[..k + 1][..k] == factors[..k];
  }

  lemma CountCompatibleOne(e: FactorComparison)
    ensures CountCompatible([e]) == if e.compatible then 1 else 0
  {
    assert [e][1..] == [];
  }

  /** The loop's invariant: the comparisons and the count of the first
      `k` factors. */
  predicate ComparedSoFar(row1: Row, row2: Row, factors: seq<string>, k: nat, comparisons: seq<FactorComparison>, count: nat)
    requires k <= |factors|
  {
    comparisons == Comparisons(row1, row2, factors[..k]) && count == CountCompatible(comparisons)
  }

  /** One factor more, compared and counted when both rows carry it. */
  lemma CompareAdvance(row1: Row, row2: Row, factors: seq<string>, k: nat,
                       comparisons: seq<FactorComparison>, count: nat, comparisons': seq<FactorComparison>, count': nat)
    requires k < |factors| && ComparedSoFar(row1, row2, factors, k, comparisons, count)
    requires var f := factors[k];
      if Has(row1, f) && Has(row2, f) then
        comparisons' == comparisons + [Comparison(row1, row2, f)] &&
        count' == count + (if Comparison(row1, row2, f).compatible then 1 else 0)
      else comparisons' == comparisons && count' == count
    ensures ComparedSoFar(row1, row2, factors, k + 1, comparisons', count')
  {
    CompareStep(row1, row2, factors, k);
    var e := Comparison(row1, row2, factors[k]);
    CountCompatibleAppend(comparisons, [e]);
    CountCompatibleOne(e);
  }

  lemma ComparedAll(row1: Row, row2: Row, factors: seq<string>, comparisons: seq<FactorComparison>, count: nat)
    requires ComparedSoFar(row1, row2, factors, |factors|, comparisons, count)
    ensures comparisons == Comparisons(row1, row2, factors) && count == CountCompatible(comparisons)
  {
    assert factors[..|factors|] == factors;
  }

  /** The comparison loop of `explain_compatibility_factors` and its
      counter, over any factor list. */
  method CompareFactors(row1: Row, row2: Row, factors: seq<string>) returns (comparisons: seq<FactorComparison>, compatibleCount: nat)
    ensures comparisons == Comparisons(row1, row2, factors)
    ensures compatibleCount == CountCompatible(comparisons)
  {
    comparisons := [];
    compatibleCount := 0;
    var k := 0;
    while k < |factors|
      invariant 0 <= k <= |factors|
      invariant ComparedSoFar(row1, row2, factors, k, comparisons, compatibleCount)
    {
      var factor := factors[k];
      var before, countBefore := comparisons, compatibleCount;
      if Has(row1, factor) && Has(row2, factor) {
        var entry := Comparison(row1, row2, factor);
        comparisons := comparisons + [entry];
        if entry.compatible {
          compatibleCount := compatibleCount + 1;
        }
      }
      CompareAdvance(row1, row2, factors, k, before, countBefore, comparisons, compatibleCount);
      k := k + 1;
    }
    ComparedAll(row1, row2, factors, comparisons, compatibleCount);
  }

  /** `explain_compatibility_factors`: look both residents up, compare
      the six key factors and score the matches. */
  method ExplainCompatibilityFactors(t: Table, id1: int, id2: int) returns (r: Result<FactorsReport>)
    ensures r == FactorsReportOf(t, id1, id2)
  {
    var i1 := FindRow(t, id1);
    var i2 := FindRow(t, id2);
    if i1.None? || i2.None? {
      return Err("single positional indexer is out-of-bounds");
    }
    var row1 := RowAt(t, i1.value);
    var row2 := RowAt(t, i2.value);
    var comparisons, compatibleCount := CompareFactors(row1, row2, KeyFactors);
    var score := FactorScore(compatibleCount);
    r := Ok(FactorsReport(id1, NameOr(row1, "Inquilino 1"), id2, NameOr(row2, "Inquilino 2"), comparisons, score, Summary(score)));
  }

  // ---------------------------------------------------------------------
  // generate_global_explanations
  // ---------------------------------------------------------------------

  function Keys<V>(d: seq<(string, V)>): (k: seq<string>)
    ensures |k| == |d|
    ensures forall i :: 0 <= i < |d| ==> k[i] == d[i].0
  {
    seq(|d|, i requires 0 <= i < |d| => d[i].0)
  }

  /** `d[key] = value` on a dictionary kept as its items in insertion
      order: an existing key keeps its place. */
  function Assign(d: seq<(string, real)>, key: string, value: real): (r: seq<(string, real)>)
    ensures |r| == |d| + (if key in Keys(d) then 0 else 1)
    ensures forall i :: 0 <= i < |d| ==> r[i].0 == d[i].0
    ensures (key in Keys(d)) ==> forall i :: 0 <= i < |d| ==> r[i] == (if d[i].0 == key then (key, value) else d[i])
    ensures key !in Keys(d) ==> r == d + [(key, value)]
  {
    if key in Keys(d) then seq(|d|, i requires 0 <= i < |d| => if d[i].0 == key then (key, value) else d[i])
    else d + [(key, value)]
  }

  lemma AssignKeepsDistinct(d: seq<(string, real)>, key: string, value: real)
    requires Distinct(Keys(d))
    ensures Distinct(Keys(Assign(d, key, value)))
    ensures key in Keys(Assign(d, key, value))
  {
    var r := Assign(d, key, value);
    if key !in Keys(d) {
      forall a, b | 0 <= a < b < |r| ensures Keys(r)[a] != Keys(r)[b] {
        if b == |d| {
          assert Keys(r)[a] == Keys(d)[a];
        } else {
          assert Keys(r)[a] == Keys(d)[a] && Keys(r)[b] == Keys(d)[b];
        }
      }
      assert Keys(r)[|d|] == key;
    } else {
      forall a, b | 0 <= a < b < |r| ensures Keys(r)[a] != Keys(r)[b] {
        assert Keys(r)[a] == Keys(d)[a] && Keys(r)[b] == Keys(d)[b];
      }
      var i :| 0 <= i < |d| && Keys(d)[i] == key;
      assert Keys(r)[i] == key;
    }
  }

  /** `zip(feature_names, feature_importances_)` */
  function Zip(names: seq<string>, importances: seq<real>): (z: seq<(string, real)>)
    ensures |z| == Min(|names|, |importances|)
    ensures forall i :: 0 <= i < |z| ==> z[i] == (names[i], importances[i])
  {
    seq(Min(|names|, |importances|), i requires 0 <= i < Min(|names|, |importances|) => (names[i], importances[i]))
  }

  /** The dictionary the zip loop fills: one entry per distinct feature
      name, in first-insertion order, holding an importance given for it. */
  function ImportanceDict(items: seq<(string, real)>): (d: seq<(string, real)>)
    ensures Distinct(Keys(d))
    ensures forall i :: 0 <= i < |items| ==> items[i].0 in Keys(d)
    ensures forall f :: f in Keys(d) ==> f in Keys(items)
  {
    if items == [] then []
    else
      var n := |items| - 1;
      var prev := ImportanceDict(items[..n]);
      AssignKeepsDistinct(prev, items[n].0, items[n].1);
      var d := Assign(prev, items[n].0, items[n].1);
      assert forall i :: 0 <= i < n ==> items[i] == items[..n][i];
      assert forall i :: 0 <= i < |prev| ==> Keys(d)[i] == Keys(prev)[i];
      assert forall f :: f in Keys(items[..n]) ==> f in Keys(items) by {
        assert forall i :: 0 <= i < n ==> Keys(items[..n])[i] == Keys(items)[i];
      }
      assert Keys(items)[n] == items[n].0;
      d
  }

  /** The dictionary of the model: empty without `feature_importances_`. */
  function ImportanceTable(model: ModelKind, names: seq<string>): seq<(string, real)>
  {
    if model.Model? && model.importances.Some? then ImportanceDict(Zip(names, model.importances.value)) else []
  }

  function ItemImportance(item: (string, real)): real { item.1 }

  /** The sorted items of a dictionary still have distinct keys. */
  lemma SortedKeysDistinct(d: seq<(string, real)>)
    requires Distinct(Keys(d))
    ensures Distinct(Keys(SortDesc(d, ItemImportance)))
  {
    var r := SortDesc(d, ItemImportance);
    assert forall a, b :: 0 <= a < b < |d| ==> d[a] != d[b] by {
      forall a, b | 0 <= a < b < |d| ensures d[a] != d[b] {
        assert Keys(d)[a] != Keys(d)[b];
      }
    }
    DistinctPermutation(d, r);
    forall a, b | 0 <= a < b < |r| ensures Keys(r)[a] != Keys(r)[b] {
      InMultiset(d, r, a);
      InMultiset(d, r, b);
      var i :| 0 <= i < |d| && d[i] == r[a];
      var j :| 0 <= j < |d| && d[j] == r[b];
      assert i != j;
      assert Keys(d)[i] != Keys(d)[j];
    }
  }

  datatype GlobalEntry = GlobalEntry(importance: real, rank: nat, humanName: string)

  /** The entry of the feature in position `i` of the ranking. */
  function EntryAt(ranked: seq<(string, real)>, i: nat): GlobalEntry
    requires i < |ranked|
  {
    GlobalEntry(ranked[i].1, i + 1, HumanizeFeatureName(ranked[i].0))
  }

  /** `global_importance` once ranked, up to position `n`: exactly those
      features, each with its importance, its position from 1 and its
      human name. */
  predicate EntriesUpTo(ranked: seq<(string, real)>, importance: map<string, GlobalEntry>, n: nat)
    requires n <= |ranked|
  {
    (forall f :: f in importance ==> f in Keys(ranked)[..n]) &&
    forall i :: 0 <= i < n ==> ranked[i].0 in importance && importance[ranked[i].0] == EntryAt(ranked, i)
  }

  predicate EntriesOf(ranked: seq<(string, real)>, importance: map<string, GlobalEntry>)
  {
    EntriesUpTo(ranked, importance, |ranked|)
  }

  lemma EntriesStep(ranked: seq<(string, real)>, importance: map<string, GlobalEntry>, n: nat)
    requires Distinct(Keys(ranked)) && n < |ranked| && EntriesUpTo(ranked, importance, n)
    ensures EntriesUpTo(ranked, importance[ranked[n].0 := EntryAt(ranked, n)], n + 1)
  {
    assert Keys(ranked)[..n + 1] == Keys(ranked)[..n] + [ranked[n].0];
    assert forall k :: 0 <= k < n ==> ranked[k].0 != ranked[n].0 by {
      assert forall k :: 0 <= k < n ==> Keys(ranked)[k] != Keys(ranked)[n];
    }
  }

  /** `for rank, (feature, info) in enumerate(sorted_features, 1)` */
  method RankEntries(ranked: seq<(string, real)>) returns (importance: map<string, GlobalEntry>)
    requires Distinct(Keys(ranked))
    ensures EntriesOf(ranked, importance)
  {
    importance := map[];
    var i := 0;
    while i < |ranked|
      invariant 0 <= i <= |ranked| && EntriesUpTo(ranked, importance, i)
    {
      EntriesStep(ranked, importance, i);
      importance := importance[ranked[i].0 := EntryAt(ranked, i)];
      i := i + 1;
    }
  }

  /** The ranks alone: the feature in position `i` has rank `i + 1`. */
  predicate RanksOf(ranked: seq<(string, real)>, importance: map<string, GlobalEntry>)
  {
    (forall f :: f in importance ==> f in Keys(ranked)) &&
    forall i :: 0 <= i < |ranked| ==> ranked[i].0 in importance && importance[ranked[i].0].rank == i + 1
  }

  lemma EntriesRanks(ranked: seq<(string, real)>, importance: map<string, GlobalEntry>)
    requires EntriesOf(ranked, importance)
    ensures RanksOf(ranked, importance)
  {
    assert Keys(ranked)[..|ranked|] == Keys(ranked);
  }

  /** Ranks are a bijection onto 1..n: every position has its rank, no
      rank is outside 1..n and no two features share one. */
  lemma RanksBijection(ranked: seq<(string, real)>, importance: map<string, GlobalEntry>)
    requires EntriesOf(ranked, importance)
    ensures forall f :: f in importance ==> 1 <= importance[f].rank <= |ranked|
    ensures forall f, g :: f in importance && g in importance && f != g ==> importance[f].rank != importance[g].rank
  {
    EntriesRanks(ranked, importance);
    RanksInRange(ranked, importance);
  }

  lemma RanksInRange(ranked: seq<(string, real)>, importance: map<string, GlobalEntry>)
    requires RanksOf(ranked, importance)
    ensures forall f :: f in importance ==> 1 <= importance[f].rank <= |ranked|
    ensures forall f, g :: f in importance && g in importance && f != g ==> importance[f].rank != importance[g].rank
  {
    forall f | f in importance ensures 1 <= importance[f].rank <= |ranked| {
      var i :| 0 <= i < |Keys(ranked)| && Keys(ranked)[i] == f;
    }
    forall f, g | f in importance && g in importance && f != g ensures importance[f].rank != importance[g].rank {
      var i :| 0 <= i < |Keys(ranked)| && Keys(ranked)[i] == f;
      var j :| 0 <= j < |Keys(ranked)| && Keys(ranked)[j] == g;
    }
  }

  /** In a list sorted by importance, the more important of two entries
      has the smaller rank. */
  lemma RankOrder(ranked: seq<(string, real)>, importance: map<string, GlobalEntry>, i: nat, j: nat)
    requires SortedDesc(ranked, ItemImportance) && RanksOf(ranked, importance)
    requires i < |ranked| && j < |ranked| && ranked[i].1 > ranked[j].1
    ensures importance[ranked[i].0].rank < importance[ranked[j].0].rank
  {
    assert ItemImportance(ranked[i]) > ItemImportance(ranked[j]);
  }

  /** A more important feature of the dictionary always has a smaller
      rank, whatever order its ties were ranked in. */
  lemma RanksFollowImportance(d: seq<(string, real)>, ranked: seq<(string, real)>, importance: map<string, GlobalEntry>, a: nat, b: nat)
    requires multiset(ranked) == multiset(d) && SortedDesc(ranked, ItemImportance) && RanksOf(ranked, importance)
    requires a < |d| && b < |d| && d[a].1 > d[b].1
    ensures d[a].0 in importance && d[b].0 in importance && importance[d[a].0].rank < importance[d[b].0].rank
  {
    PermutationHas(d, ranked, d[a]);
    PermutationHas(d, ranked, d[b]);
    var i :| 0 <= i < |ranked| && ranked[i] == d[a];
    var j :| 0 <= j < |ranked| && ranked[j] == d[b];
    RankOrder(ranked, importance, i, j);
  }

  /** The global importance of the explainer ranks a more important
      feature of the dictionary ahead of a less important one. */
  lemma DictionaryRanks(d: seq<(string, real)>, importance: map<string, GlobalEntry>, a: nat, b: nat)
    requires RanksOf(SortDesc(d, ItemImportance), importance)
    requires a < |d| && b < |d| && d[a].1 > d[b].1
    ensures d[a].0 in importance && d[b].0 in importance && importance[d[a].0].rank < importance[d[b].0].rank
  {
    SortDescSorted(d, ItemImportance);
    RanksFollowImportance(d, SortDesc(d, ItemImportance), importance, a, b);
  }

  datatype Pattern = Pattern(feature: string, humanName: string, difference: real)

  /** The pattern loop over the class-mean differences: a position with a
      feature name is a high pattern above 0.1 and a low one below -0.1,
      reported by its absolute difference. */
  function HighPatterns(names: seq<string>, diffs: seq<real>): seq<Pattern>
  {
    if diffs == [] then []
    else
      var i := |diffs| - 1;
      HighPatterns(names, diffs[..i])
        + (if i < |names| && diffs[i] > 0.1 then [Pattern(names[i], HumanizeFeatureName(names[i]), diffs[i])] else [])
  }

  function LowPatterns(names: seq<string>, diffs: seq<real>): seq<Pattern>
  {
    if diffs == [] then []
    else
      var i := |diffs| - 1;
      LowPatterns(names, diffs[..i])
        + (if i < |names| && diffs[i] < -0.1 then [Pattern(names[i], HumanizeFeatureName(names[i]), Abs(diffs[i]))] else [])
  }

  /** Every reported difference exceeds 0.1, every pattern names a
      feature, and no position is both a high and a low pattern. */
  lemma {:induction false} PatternsBounds(names: seq<string>, diffs: seq<real>)
    ensures forall p :: p in HighPatterns(names, diffs) ==> p.difference > 0.1 && p.feature in names
    ensures forall p :: p in LowPatterns(names, diffs) ==> p.difference > 0.1 && p.feature in names
    ensures |HighPatterns(names, diffs)| + |LowPatterns(names, diffs)| <= Min(|diffs|, |names|)
  {
    if diffs != [] {
      PatternsBounds(names, diffs[..|diffs| - 1]);
    }
  }

  /** The patterns reported: the first five of each kind, none when one
      class has no sample. */
  function Patterns(names: seq<string>, diffs: Option<seq<real>>): (p: (seq<Pattern>, seq<Pattern>))
    ensures |p.0| <= 5 && |p.1| <= 5
  {
    if diffs.None? then ([], [])
    else (Take(HighPatterns(names, diffs.value), 5), Take(LowPatterns(names, diffs.value), 5))
  }

  datatype GlobalExplanation =
    | GlobalError(msg: string)
    | Global(importance: map<string, GlobalEntry>, high: seq<Pattern>, low: seq<Pattern>, insights: seq<string>)

  const NoInsights: string := "No hay datos suficientes para generar insights"
  const InsightsHeader: string := "🔍 Insights del Modelo de Compatibilidad:"
  const InsightsFooter1: string := "📋 El modelo prioriza hábitos de vida y preferencias de convivencia"
  const InsightsFooter2: string := "🎯 La precisión mejora con más datos de comportamiento"

  function InsightLine(i: nat, humanName: string): string
  {
    IntToString(i) + ". " + humanName + " es un factor crítico para la compatibilidad"
  }

  /** The numbered lines for the leading features. */
  function InsightLines(top: seq<(string, real)>): (r: seq<string>)
    ensures |r| == |top|
  {
    if top == [] then []
    else InsightLines(top[..|top| - 1]) + [InsightLine(|top|, HumanizeFeatureName(top[|top| - 1].0))]
  }

  /** `_generate_model_insights` on the dictionary's items. */
  function ModelInsights(items: seq<(string, real)>): seq<string>
  {
    if items == [] then [NoInsights]
    else [InsightsHeader] + InsightLines(Take(SortDesc(items, ItemImportance), 3)) + [InsightsFooter1, InsightsFooter2]
  }

  /** An empty dictionary gives the one fallback line; otherwise a header,
      a line for each of the (at most three) most important features, and
      the two closing lines. */
  lemma ModelInsightsShape(items: seq<(string, real)>)
    ensures items == [] ==> ModelInsights(items) == [NoInsights]
    ensures var lines := ModelInsights(items);
      items != [] ==> (|lines| == 3 + Min(3, |items|) && lines[0] == InsightsHeader &&
        lines[|lines| - 2] == InsightsFooter1 && lines[|lines| - 1] == InsightsFooter2)
  {
  }

  /** `_generate_model_insights`. */
  method GenerateModelInsights(items: seq<(string, real)>) returns (insights: seq<string>)
    ensures insights == ModelInsights(items)
  {
    if items == [] {
      return [NoInsights];
    }
    var lines := NumberInsights(Take(SortDesc(items, ItemImportance), 3));
    insights := [InsightsHeader] + lines + [InsightsFooter1, InsightsFooter2];
  }

  /** The loop over the top features, numbered from 1. */
  method NumberInsights(top: seq<(string, real)>) returns (lines: seq<string>)
    ensures lines == InsightLines(top)
  {
    lines := [];
    var i := 0;
    while i < |top|
      invariant 0 <= i <= |top|
      invariant lines == InsightLines(top[..i])
    {
      assert top[..i + 1][..i] == top[..i];
      lines := lines + [InsightLine(i + 1, HumanizeFeatureName(top[i].0))];
      i := i + 1;
    }
    assert top[..i] == top;
  }
}
