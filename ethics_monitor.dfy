/** Fairness and privacy bookkeeping of `EthicsMonitor`: per-group selection
    rates and bias flags, the privacy check, prediction distributions, the
    ethics score and the real-time spread alert. The demographic-parity and
    equalized-odds differences come from fairlearn and are inputs here. */
module EthicsMonitor {
  import opened Common

  /** `bias_thresholds['demographic_parity']` */
  const DemographicParityThreshold: real := 0.1
  /** The spread above which `monitor_model_predictions` raises an alert. */
  const RateSpreadThreshold: real := 0.15

  // ---------------------------------------------------------------------
  // Counting over index-aligned sequences
  // ---------------------------------------------------------------------

  /** Number of positions where the two label sequences agree. */
  function Agreements(yTrue: seq<int>, yPred: seq<int>): (n: nat)
    requires |yTrue| == |yPred|
    ensures n <= |yTrue|
    ensures n == |yTrue| <==> yTrue == yPred
    decreases |yTrue|
  {
    if yTrue == [] then 0
    else
      assert yTrue == [yTrue[0]] + yTrue[1..] && yPred == [yPred[0]] + yPred[1..];
      (if yTrue[0] == yPred[0] then 1 else 0) + Agreements(yTrue[1..], yPred[1..])
  }

  /** `(y_true == y_pred).mean()`; the mean of no labels is NaN, written
      `None`. */
  function OverallAccuracy(yTrue: seq<int>, yPred: seq<int>): (r: Option<real>)
    requires |yTrue| == |yPred|
    ensures r.None? <==> yTrue == []
    ensures r.Some? ==> 0.0 <= r.value <= 1.0
    ensures r.Some? ==> (r.value == 1.0 <==> yTrue == yPred)
  {
    if yTrue == [] then None
    else
      Share(Agreements(yTrue, yPred), |yTrue|);
      Some((Agreements(yTrue, yPred) as real) / (|yTrue| as real))
  }

  /** Sum of the predictions at the positions whose group is `g`. */
  function SumWhere(yPred: seq<int>, values: seq<string>, g: string): int
    requires |yPred| == |values|
    decreases |values|
  {
    if values == [] then 0
    else (if values[0] == g then yPred[0] else 0) + SumWhere(yPred[1..], values[1..], g)
  }

  /** Number of positions whose group is `g` and whose prediction is `y`. */
  function CountWhere(yPred: seq<int>, values: seq<string>, g: string, y: int): (n: nat)
    requires |yPred| == |values|
    ensures n <= Count(values, g)
    decreases |values|
  {
    if values == [] then 0
    else (if values[0] == g && yPred[0] == y then 1 else 0) + CountWhere(yPred[1..], values[1..], g, y)
  }

  predicate Binary(yPred: seq<int>)
  {
    forall i :: 0 <= i < |yPred| ==> yPred[i] == 0 || yPred[i] == 1
  }

  /** For 0/1 predictions the zeros and ones of a group add up to its size,
      and the sum of its predictions is its number of ones. */
  lemma {:induction false} BinaryCounts(yPred: seq<int>, values: seq<string>, g: string)
    requires |yPred| == |values| && Binary(yPred)
    ensures CountWhere(yPred, values, g, 0) + CountWhere(yPred, values, g, 1) == Count(values, g)
    ensures SumWhere(yPred, values, g) == CountWhere(yPred, values, g, 1)
    decreases |values|
  {
    if values != [] {
      assert Binary(yPred[1..]) by {
        forall i | 0 <= i < |yPred[1..]| ensures yPred[1..][i] == 0 || yPred[1..][i] == 1 {
          assert yPred[1..][i] == yPred[i + 1];
        }
      }
      BinaryCounts(yPred[1..], values[1..], g);
    }
  }

  /** The distinct sensitive values (`np.unique(feature_values)`). */
  function Groups(values: seq<string>): set<string>
  {
    set i | 0 <= i < |values| :: values[i]
  }

  /** `np.mean(y_pred[feature_values == g])` */
  function Rate(yPred: seq<int>, values: seq<string>, g: string): real
    requires |yPred| == |values| && g in values
  {
    (SumWhere(yPred, values, g) as real) / (Count(values, g) as real)
  }

  lemma RateInUnitInterval(yPred: seq<int>, values: seq<string>, g: string)
    requires |yPred| == |values| && g in values && Binary(yPred)
    ensures 0.0 <= Rate(yPred, values, g) <= 1.0
  {
    BinaryCounts(yPred, values, g);
    Share(CountWhere(yPred, values, g, 1), Count(values, g));
  }

  /** One selection rate per distinct sensitive value. */
  function SelectionRates(yPred: seq<int>, values: seq<string>): (rates: map<string, real>)
    requires |yPred| == |values|
    ensures rates.Keys == Groups(values)
  {
    map g | g in Groups(values) :: Rate(yPred, values, g)
  }

  // ---------------------------------------------------------------------
  // analyze_bias
  // ---------------------------------------------------------------------

  /** What the two fairlearn calls gave for one attribute: their two
      differences, or an exception. */
  datatype FairnessDiffs = Raised | Diffs(dp: real, eo: real)

  datatype GroupAnalysis = GroupAnalysis(
    demographicParityDiff: real,
    equalizedOddsDiff: real,
    selectionRates: map<string, real>,
    biasDetected: bool)

  /** The recommendation `"Sesgo detectado en {feature}: diferencia {dp:.3f}"`. */
  datatype BiasNote = BiasNote(feature: string, difference: real)

  datatype BiasReport = BiasReport(
    overallAccuracy: Option<real>,
    groupsAnalysis: map<string, GroupAnalysis>,
    biasDetected: bool,
    recommendations: seq<BiasNote>)

  /** A sensitive attribute: its name and its value at every position. */
  type Attribute = (string, seq<string>)

  function Names(features: seq<Attribute>): (names: seq<string>)
    ensures |names| == |features|
    ensures forall k :: 0 <= k < |features| ==> names[k] == features[k].0
  {
    seq(|features|, k requires 0 <= k < |features| => features[k].0)
  }

  /** The attribute's analysis runs to the end: fairlearn did not raise and
      the values line up with the predictions. */
  predicate Analysed(yPred: seq<int>, values: seq<string>, fair: FairnessDiffs)
  {
    fair.Diffs? && |values| == |yPred|
  }

  predicate Flagged(yPred: seq<int>, values: seq<string>, fair: FairnessDiffs)
  {
    Analysed(yPred, values, fair) && Abs(fair.dp) > DemographicParityThreshold
  }

  function Analysis(yPred: seq<int>, values: seq<string>, fair: FairnessDiffs): GroupAnalysis
    requires Analysed(yPred, values, fair)
  {
    GroupAnalysis(fair.dp, fair.eo, SelectionRates(yPred, values), Abs(fair.dp) > DemographicParityThreshold)
  }

  function NoteFor(yPred: seq<int>, feature: Attribute, fair: FairnessDiffs): (r: seq<BiasNote>)
    ensures |r| <= 1 && (|r| == 1 <==> Flagged(yPred, feature.1, fair))
  {
    if Flagged(yPred, feature.1, fair) then [BiasNote(feature.0, fair.dp)] else []
  }

  /** The names of the attributes among the first `n` whose analysis runs
      to the end. */
  function AnalysedNames(yPred: seq<int>, features: seq<Attribute>, fair: seq<FairnessDiffs>, n: nat): set<string>
    requires |features| == |fair| && n <= |features|
  {
    set k | 0 <= k < n && Analysed(yPred, features[k].1, fair[k]) :: features[k].0
  }

  lemma DistinctNamesBefore(features: seq<Attribute>, i: nat)
    requires Distinct(Names(features)) && i < |features|
    ensures forall k :: 0 <= k < i ==> features[k].0 != features[i].0
  {
    forall k | 0 <= k < i ensures features[k].0 != features[i].0 {
      assert Names(features)[k] != Names(features)[i];
    }
  }

  /** The recommendations, one per flagged attribute, in attribute order. */
  function BiasNotes(yPred: seq<int>, features: seq<Attribute>, fair: seq<FairnessDiffs>): (notes: seq<BiasNote>)
    requires |features| == |fair|
    ensures |notes| <= |features|
    decreases |features|
  {
    if features == [] then []
    else NoteFor(yPred, features[0], fair[0]) + BiasNotes(yPred, features[1..], fair[1..])
  }

  /** There is some recommendation exactly when some attribute is flagged. */
  lemma {:induction false} BiasNotesFlagged(yPred: seq<int>, features: seq<Attribute>, fair: seq<FairnessDiffs>)
    requires |features| == |fair|
    ensures |BiasNotes(yPred, features, fair)| > 0 <==> exists k :: 0 <= k < |features| && Flagged(yPred, features[k].1, fair[k])
    decreases |features|
  {
    if features != [] {
      BiasNotesFlagged(yPred, features[1..], fair[1..]);
      assert forall k :: 1 <= k < |features| ==> features[k] == features[1..][k - 1] && fair[k] == fair[1..][k - 1];
      if exists k :: 1 <= k < |features| && Flagged(yPred, features[k].1, fair[k]) {
        var k :| 1 <= k < |features| && Flagged(yPred, features[k].1, fair[k]);
        assert Flagged(yPred, features[1..][k - 1].1, fair[1..][k - 1]);
      }
    }
  }

  lemma {:induction false} BiasNotesAppend(yPred: seq<int>, features: seq<Attribute>, fair: seq<FairnessDiffs>, k: nat)
    requires |features| == |fair| && k < |features|
    ensures BiasNotes(yPred, features[..k + 1], fair[..k + 1]) ==
      BiasNotes(yPred, features[..k], fair[..k]) + NoteFor(yPred, features[k], fair[k])
    decreases k
  {
    if k == 0 {
      assert features[..1][1..] == [] && fair[..1][1..] == [];
    } else {
      assert features[..k + 1][1..] == features[1..][..k] && fair[..k + 1][1..] == fair[1..][..k];
      assert features[..k][1..] == features[1..][..k - 1] && fair[..k][1..] == fair[1..][..k - 1];
      BiasNotesAppend(yPred, features[1..], fair[1..], k - 1);
    }
  }

  predicate AnyFlagged(yPred: seq<int>, features: seq<Attribute>, fair: seq<FairnessDiffs>, n: nat)
    requires |features| == |fair| && n <= |features|
  {
    exists k :: 0 <= k < n && Flagged(yPred, features[k].1, fair[k])
  }

  /** `groups` holds the analysis of every analysed attribute among the
      first `n`, under its name, and nothing else. */
  predicate Recorded(groups: map<string, GroupAnalysis>, yPred: seq<int>, features: seq<Attribute>, fair: seq<FairnessDiffs>, n: nat)
    requires |features| == |fair| && n <= |features|
  {
    groups.Keys == AnalysedNames(yPred, features, fair, n) &&
    forall k :: 0 <= k < n && Analysed(yPred, features[k].1, fair[k]) ==>
      features[k].0 in groups && groups[features[k].0] == Analysis(yPred, features[k].1, fair[k])
  }

  lemma RecordedStep(groups: map<string, GroupAnalysis>, yPred: seq<int>, features: seq<Attribute>, fair: seq<FairnessDiffs>, i: nat)
    requires |features| == |fair| && i < |features| && Distinct(Names(features))
    requires Recorded(groups, yPred, features, fair, i)
    ensures Analysed(yPred, features[i].1, fair[i]) ==>
      Recorded(groups[features[i].0 := Analysis(yPred, features[i].1, fair[i])], yPred, features, fair, i + 1)
    ensures !Analysed(yPred, features[i].1, fair[i]) ==> Recorded(groups, yPred, features, fair, i + 1)
  {
    DistinctNamesBefore(features, i);
    if Analysed(yPred, features[i].1, fair[i]) {
      assert AnalysedNames(yPred, features, fair, i + 1) == AnalysedNames(yPred, features, fair, i) + {features[i].0};
    } else {
      assert AnalysedNames(yPred, features, fair, i + 1) == AnalysedNames(yPred, features, fair, i);
    }
  }

  /** What `analyze_bias` has built after the first `n` attributes. */
  predicate BiasSoFar(groups: map<string, GroupAnalysis>, detected: bool, notes: seq<BiasNote>,
                      yPred: seq<int>, features: seq<Attribute>, fair: seq<FairnessDiffs>, n: nat)
    requires |features| == |fair| && n <= |features|
  {
    (detected <==> AnyFlagged(yPred, features, fair, n)) &&
    notes == BiasNotes(yPred, features[..n], fair[..n]) &&
    Recorded(groups, yPred, features, fair, n)
  }

  lemma BiasStep(groups: map<string, GroupAnalysis>, detected: bool, notes: seq<BiasNote>,
                 yPred: seq<int>, features: seq<Attribute>, fair: seq<FairnessDiffs>, i: nat)
    requires |features| == |fair| && i < |features| && Distinct(Names(features))
    requires BiasSoFar(groups, detected, notes, yPred, features, fair, i)
    ensures !Analysed(yPred, features[i].1, fair[i]) ==>
      BiasSoFar(groups, detected, notes, yPred, features, fair, i + 1)
    ensures Analysed(yPred, features[i].1, fair[i]) && !Flagged(yPred, features[i].1, fair[i]) ==>
      BiasSoFar(groups[features[i].0 := Analysis(yPred, features[i].1, fair[i])], detected, notes,
        yPred, features, fair, i + 1)
    ensures Flagged(yPred, features[i].1, fair[i]) ==>
      BiasSoFar(groups[features[i].0 := Analysis(yPred, features[i].1, fair[i])], true,
        notes + [BiasNote(features[i].0, fair[i].dp)], yPred, features, fair, i + 1)
  {
    BiasNotesAppend(yPred, features, fair, i);
    RecordedStep(groups, yPred, features, fair, i);
    assert AnyFlagged(yPred, features, fair, i + 1) <==>
      AnyFlagged(yPred, features, fair, i) || Flagged(yPred, features[i].1, fair[i]);
  }

  /** `analyze_bias`: one pass over the sensitive attributes; an attribute
      whose analysis raises is skipped, a flagged one sets the report's flag
      for good and adds one recommendation. Attribute names are the keys of
      a dict, hence distinct. */
  method AnalyzeBias(yTrue: seq<int>, yPred: seq<int>, features: seq<Attribute>, fair: seq<FairnessDiffs>)
    returns (report: BiasReport)
    requires |yTrue| == |yPred|
    requires |fair| == |features| && Distinct(Names(features))
    ensures report.overallAccuracy == OverallAccuracy(yTrue, yPred)
    ensures report.biasDetected <==> AnyFlagged(yPred, features, fair, |features|)
    ensures report.recommendations == BiasNotes(yPred, features, fair)
    ensures Recorded(report.groupsAnalysis, yPred, features, fair, |features|)
  {
    var accuracy := OverallAccuracy(yTrue, yPred);
    var groups: map<string, GroupAnalysis> := map[];
    var detected := false;
    var recommendations: seq<BiasNote> := [];
    var i := 0;
    while i < |features|
      invariant 0 <= i <= |features|
      invariant BiasSoFar(groups, detected, recommendations, yPred, features, fair, i)
    {
      var name, values := features[i].0, features[i].1;
      BiasStep(groups, detected, recommendations, yPred, features, fair, i);
      if fair[i].Diffs? && |values| == |yPred| {
        var dp := fair[i].dp;
        groups := groups[name := Analysis(yPred, values, fair[i])];
        if Abs(dp) > DemographicParityThreshold {
          detected := true;
          recommendations := recommendations + [BiasNote(name, dp)];
        }
      }
      i := i + 1;
    }
    assert features[..|features|] == features && fair[..|fair|] == fair;
    report := BiasReport(accuracy, groups, detected, recommendations);
  }

  // ---------------------------------------------------------------------
  // _calculate_ethics_score
  // ---------------------------------------------------------------------

  /** 100, minus 30 for detected bias, minus 5 per recommendation, plus 20
      times the overall accuracy, clamped to [0, 100]. A NaN accuracy makes
      the sum NaN, and Python's `min(100.0, nan)` keeps its first argument,
      so the score is then 100. */
  function EthicsScore(biasDetected: bool, recommendations: nat, accuracy: Option<real>): (r: real)
    ensures 0.0 <= r <= 100.0
    ensures accuracy.None? ==> r == 100.0
    ensures accuracy.Some? && 0.0 <= accuracy.value <= 1.0 && !biasDetected && recommendations == 0 ==> r == 100.0
    ensures accuracy.Some? && accuracy.value <= 1.0 && biasDetected ==> r <= 90.0
  {
    match accuracy
    case None => 100.0
    case Some(acc) =>
      var base := 100.0 - (if biasDetected then 30.0 else 0.0) - 5.0 * (recommendations as real) + 20.0 * acc;
      Clamp(0.0, 100.0, base)
  }

  /** More recommendations never raise the score. */
  lemma EthicsScoreMonotone(b: bool, n: nat, m: nat, acc: Option<real>)
    requires n <= m
    ensures EthicsScore(b, m, acc) <= EthicsScore(b, n, acc)
  {
  }

  /** On a report that `AnalyzeBias` produces for at least one label, the
      ethics score is full exactly when no bias was detected: an unbiased
      report has no recommendation, and a biased one has at least one,
      which caps the score at 85. */
  lemma {:induction false} FullScoreIffNoBias(yTrue: seq<int>, yPred: seq<int>, features: seq<Attribute>, fair: seq<FairnessDiffs>)
    requires |yTrue| == |yPred| > 0 && |fair| == |features|
    ensures var detected := exists k :: 0 <= k < |features| && Flagged(yPred, features[k].1, fair[k]);
      EthicsScore(detected, |BiasNotes(yPred, features, fair)|, OverallAccuracy(yTrue, yPred)) == 100.0 <==> !detected
  {
    var detected := exists k :: 0 <= k < |features| && Flagged(yPred, features[k].1, fair[k]);
    var n := |BiasNotes(yPred, features, fair)|;
    var acc := OverallAccuracy(yTrue, yPred).value;
    BiasNotesFlagged(yPred, features, fair);
    if detected {
      assert n >= 1;
      assert 100.0 - 30.0 - 5.0 * (n as real) + 20.0 * acc <= 85.0;
    } else {
      assert n == 0;
    }
  }

  // ---------------------------------------------------------------------
  // privacy_check
  // ---------------------------------------------------------------------

  const SensitiveFields: seq<string> := ["nombre", "telefono", "email", "direccion", "cedula"]

  const PrivacyAdvice: seq<string> := [
    "Anonimizar o encriptar campos sensibles",
    "Implementar hash para identificadores únicos",
    "Considerar técnicas de differential privacy"]

  datatype PrivacyReport = PrivacyReport(
    piiDetected: bool,
    anonymizationScore: real,
    issues: seq<string>,
    recommendations: seq<string>)

  /** The fields of `fields` that are columns, in the order of `fields`. */
  function PresentFields(fields: seq<string>, columns: seq<string>): (r: seq<string>)
    ensures |r| <= |fields|
    ensures forall f :: f in r <==> f in fields && f in columns
    ensures Distinct(fields) ==> Distinct(r)
    decreases |fields|, |columns|
  {
    if fields == [] then []
    else
      var rest := PresentFields(fields[1..], columns);
      if fields[0] in columns then [fields[0]] + rest else rest
  }

  function Issue(field: string): string
  {
    "Campo sensible detectado: " + field
  }

  function Issues(fields: seq<string>): (r: seq<string>)
    ensures |r| == |fields|
    ensures forall i :: 0 <= i < |fields| ==> r[i] == Issue(fields[i])
  {
    seq(|fields|, i requires 0 <= i < |fields| => Issue(fields[i]))
  }

  /** The report once the sensitive columns are known: `present` are the
      sensitive fields found among `total` columns. */
  function ReportFor(present: seq<string>, total: nat): (r: PrivacyReport)
    requires |present| <= total && total > 0
    ensures r.piiDetected <==> |present| > 0
    ensures r.issues == Issues(present)
    ensures r.recommendations == (if r.piiDetected then PrivacyAdvice else [])
    ensures 0.0 <= r.anonymizationScore <= 1.0
    ensures r.anonymizationScore == 1.0 <==> !r.piiDetected
  {
    Share(|present|, total);
    PrivacyReport(|present| > 0, 1.0 - (|present| as real) / (total as real),
      Issues(present), if |present| > 0 then PrivacyAdvice else [])
  }

  /** The privacy report for a frame with these columns; `None` stands for
      the ZeroDivisionError of a frame without columns. */
  function PrivacyReportOf(columns: seq<string>): (r: Option<PrivacyReport>)
    ensures r.None? <==> |columns| == 0
    ensures r.Some? ==> (r.value.piiDetected <==> exists f :: f in SensitiveFields && f in columns)
    ensures r.Some? ==> r.value.issues == Issues(PresentFields(SensitiveFields, columns))
    ensures r.Some? ==> r.value.recommendations == (if r.value.piiDetected then PrivacyAdvice else [])
    ensures r.Some? ==> 0.0 <= r.value.anonymizationScore <= 1.0
    ensures r.Some? ==> (r.value.anonymizationScore == 1.0 <==> !r.value.piiDetected)
  {
    if |columns| == 0 then None
    else
      var present := PresentFields(SensitiveFields, columns);
      PresentWithinColumns(present, columns);
      assert |present| > 0 <==> exists f :: f in SensitiveFields && f in columns by {
        if exists f :: f in SensitiveFields && f in columns {
          var f :| f in SensitiveFields && f in columns;
          assert f in present;
        }
        if |present| > 0 {
          assert present[0] in present;
        }
      }
      Some(ReportFor(present, |columns|))
  }

  lemma PresentWithinColumns(present: seq<string>, columns: seq<string>)
    requires present == PresentFields(SensitiveFields, columns)
    ensures |present| <= |columns|
  {
    assert Distinct(SensitiveFields);
    DistinctWithin(present, set x | x in columns);
    ElementsCard(columns);
  }

  /** `privacy_check`: one pass over the five identifying fields. */
  method PrivacyCheck(columns: seq<string>) returns (r: Option<PrivacyReport>)
    ensures r == PrivacyReportOf(columns)
  {
    var pii := false;
    var issues: seq<string> := [];
    var i := 0;
    while i < |SensitiveFields|
      invariant 0 <= i <= |SensitiveFields|
      invariant issues == Issues(PresentFields(SensitiveFields[..i], columns))
      invariant pii <==> |issues| > 0
    {
      var field := SensitiveFields[i];
      PresentFieldsAppend(SensitiveFields[..i], field, columns);
      assert SensitiveFields[..i + 1] == SensitiveFields[..i] + [field];
      IssuesAppend(PresentFields(SensitiveFields[..i], columns), field);
      if field in columns {
        pii := true;
        issues := issues + [Issue(field)];
      }
      i := i + 1;
    }
    assert SensitiveFields[..i] == SensitiveFields;
    PresentWithinColumns(PresentFields(SensitiveFields, columns), columns);
    if |columns| == 0 {
      r := None;
    } else {
      var total := |columns|;
      var sensitiveCount := |PresentFields(SensitiveFields, columns)|;
      var recommendations: seq<string> := if pii then PrivacyAdvice else [];
      r := Some(PrivacyReport(pii, 1.0 - (sensitiveCount as real) / (total as real), issues, recommendations));
    }
  }

  lemma IssuesAppend(fields: seq<string>, f: string)
    ensures Issues(fields + [f]) == Issues(fields) + [Issue(f)]
  {
    assert Issues(fields + [f])[|fields|] == Issue(f);
  }

  lemma {:induction false} PresentFieldsAppend(fields: seq<string>, f: string, columns: seq<string>)
    ensures PresentFields(fields + [f], columns) == PresentFields(fields, columns) + (if f in columns then [f] else [])
    decreases |fields|
  {
    if fields == [] {
      assert [] + [f] == [f];
    } else {
      assert (fields + [f])[1..] == fields[1..] + [f];
      PresentFieldsAppend(fields[1..], f, columns);
    }
  }

  // ---------------------------------------------------------------------
  // _analyze_prediction_distribution
  // ---------------------------------------------------------------------

  datatype GroupDistribution = GroupDistribution(count: nat, positiveRate: real, zeros: nat, ones: nat)

  function Distribution(yPred: seq<int>, values: seq<string>): (d: map<string, GroupDistribution>)
    requires |yPred| == |values|
    ensures d.Keys == Groups(values)
  {
    map g | g in Groups(values) ::
      GroupDistribution(Count(values, g), Rate(yPred, values, g),
        CountWhere(yPred, values, g, 0), CountWhere(yPred, values, g, 1))
  }

  /** `_analyze_prediction_distribution`: one entry per attribute, one per
      group inside it. */
  method AnalyzePredictionDistribution(yPred: seq<int>, features: seq<Attribute>)
    returns (distribution: map<string, map<string, GroupDistribution>>)
    requires forall k :: 0 <= k < |features| ==> |features[k].1| == |yPred|
    requires Distinct(Names(features))
    ensures distribution.Keys == set k | 0 <= k < |features| :: features[k].0
    ensures forall k :: 0 <= k < |features| ==> distribution[features[k].0] == Distribution(yPred, features[k].1)
  {
    distribution := map[];
    var i := 0;
    while i < |features|
      invariant 0 <= i <= |features|
      invariant distribution.Keys == set k | 0 <= k < i :: features[k].0
      invariant forall k :: 0 <= k < i ==> distribution[features[k].0] == Distribution(yPred, features[k].1)
    {
      var name, values := features[i].0, features[i].1;
      DistinctNamesBefore(features, i);
      distribution := distribution[name := Distribution(yPred, values)];
      i := i + 1;
    }
  }

  /** In every group of 0/1 predictions, the '0' and '1' counts add up to
      the group's size, and the positive rate is the share of ones. */
  lemma DistributionCountsAddUp(yPred: seq<int>, values: seq<string>, g: string)
    requires |yPred| == |values| && Binary(yPred) && g in Groups(values)
    ensures var e := Distribution(yPred, values)[g];
      e.count > 0 && e.zeros + e.ones == e.count && e.positiveRate == (e.ones as real) / (e.count as real)
  {
    var i :| 0 <= i < |values| && values[i] == g;
    assert g in values;
    BinaryCounts(yPred, values, g);
  }

  // ---------------------------------------------------------------------
  // monitor_model_predictions
  // ---------------------------------------------------------------------

  /** A demographic record as a Python dict: its (key, value) pairs in order. */
  type Demographic = seq<(string, string)>

  function Keys(d: Demographic): (keys: seq<string>)
    ensures |keys| == |d|
  {
    seq(|d|, i requires 0 <= i < |d| => d[i].0)
  }

  /** `d.get(key, 'unknown')` */
  function Lookup(d: Demographic, key: string): string
    decreases |d|
  {
    if d == [] then "unknown" else if d[0].0 == key then d[0].1 else Lookup(d[1..], key)
  }

  function Column(demographics: seq<Demographic>, key: string): (values: seq<string>)
    ensures |values| == |demographics|
  {
    seq(|demographics|, i requires 0 <= i < |demographics| => Lookup(demographics[i], key))
  }

  function MaxRate(yPred: seq<int>, values: seq<string>, groups: seq<string>): (m: real)
    requires |yPred| == |values| && |groups| > 0
    requires forall i :: 0 <= i < |groups| ==> groups[i] in values
    ensures forall i :: 0 <= i < |groups| ==> Rate(yPred, values, groups[i]) <= m
    ensures exists i :: 0 <= i < |groups| && Rate(yPred, values, groups[i]) == m
    decreases |groups|
  {
    if |groups| == 1 then Rate(yPred, values, groups[0])
    else
      var rest := MaxRate(yPred, values, groups[1..]);
      assert forall i :: 1 <= i < |groups| ==> groups[i] == groups[1..][i - 1];
      var here := Rate(yPred, values, groups[0]);
      if here >= rest then here else rest
  }

  function MinRate(yPred: seq<int>, values: seq<string>, groups: seq<string>): (m: real)
    requires |yPred| == |values| && |groups| > 0
    requires forall i :: 0 <= i < |groups| ==> groups[i] in values
    ensures forall i :: 0 <= i < |groups| ==> Rate(yPred, values, groups[i]) >= m
    ensures exists i :: 0 <= i < |groups| && Rate(yPred, values, groups[i]) == m
    decreases |groups|
  {
    if |groups| == 1 then Rate(yPred, values, groups[0])
    else
      var rest := MinRate(yPred, values, groups[1..]);
      assert forall i :: 1 <= i < |groups| ==> groups[i] == groups[1..][i - 1];
      var here := Rate(yPred, values, groups[0]);
      if here <= rest then here else rest
  }

  /** `max(rates) - min(rates)` over the distinct groups of one attribute. */
  function Spread(yPred: seq<int>, values: seq<string>): real
    requires |yPred| == |values| && |values| > 0
  {
    var groups := Dedup(values);
    assert values[0] in groups;
    MaxRate(yPred, values, groups) - MinRate(yPred, values, groups)
  }

  /** The alert `"Diferencia significativa en {feature}: {group_rates}"`. */
  datatype Alert = Alert(feature: string, groupRates: map<string, real>)

  /** An attribute is checked when it has more than one group, and alerts
      when its rate spread exceeds the threshold. */
  predicate Alerts(yPred: seq<int>, values: seq<string>)
    requires |yPred| == |values|
  {
    |Dedup(values)| > 1 && Spread(yPred, values) > RateSpreadThreshold
  }

  function AlertFor(yPred: seq<int>, demographics: seq<Demographic>, key: string): (r: seq<Alert>)
    requires |yPred| == |demographics|
    ensures |r| <= 1
  {
    var values := Column(demographics, key);
    if Alerts(yPred, values) then [Alert(key, SelectionRates(yPred, values))] else []
  }

  /** The alerts over the attribute keys, in key order. */
  function MonitorAlerts(yPred: seq<int>, demographics: seq<Demographic>, keys: seq<string>): (alerts: seq<Alert>)
    requires |yPred| == |demographics|
    ensures |alerts| <= |keys|
    decreases |keys|
  {
    if keys == [] then []
    else
      AlertFor(yPred, demographics, keys[0]) + MonitorAlerts(yPred, demographics, keys[1..])
  }

  lemma {:induction false} MonitorAlertsAppend(yPred: seq<int>, demographics: seq<Demographic>, keys: seq<string>, k: nat)
    requires |yPred| == |demographics| && k < |keys|
    ensures MonitorAlerts(yPred, demographics, keys[..k + 1]) ==
      MonitorAlerts(yPred, demographics, keys[..k]) + AlertFor(yPred, demographics, keys[k])
    decreases k
  {
    if k == 0 {
      assert keys[..1][1..] == [];
    } else {
      assert keys[..k + 1][1..] == keys[1..][..k];
      assert keys[..k][1..] == keys[1..][..k - 1];
      MonitorAlertsAppend(yPred, demographics, keys[1..], k - 1);
    }
  }

  datatype MonitorReport =
    | LengthMismatch
    | Monitoring(totalPredictions: nat, positiveRate: Option<real>, alerts: seq<Alert>)

  function Sum(s: seq<int>): int
  {
    if s == [] then 0 else s[0] + Sum(s[1..])
  }

  /** `monitor_model_predictions`: predictions and demographic records must
      line up; the attributes are the keys of the first record; a mean of
      no predictions is NaN, written `None`. */
  method MonitorModelPredictions(predictions: seq<int>, demographics: seq<Demographic>)
    returns (report: MonitorReport)
    ensures report.LengthMismatch? <==> |predictions| != |demographics|
    ensures report.Monitoring? ==> report.totalPredictions == |predictions|
    ensures report.Monitoring? ==>
      report.positiveRate == (if predictions == [] then None else Some((Sum(predictions) as real) / (|predictions| as real)))
    ensures report.Monitoring? ==>
      report.alerts == (if demographics == [] then [] else MonitorAlerts(predictions, demographics, Keys(demographics[0])))
  {
    if |predictions| != |demographics| {
      return LengthMismatch;
    }
    var keys: seq<string> := if demographics == [] then [] else Keys(demographics[0]);
    var alerts := CollectAlerts(predictions, demographics, keys);
    var rate := if predictions == [] then None else Some((Sum(predictions) as real) / (|predictions| as real));
    report := Monitoring(|predictions|, rate, alerts);
  }

  /** The alert loop of `monitor_model_predictions`. */
  method CollectAlerts(predictions: seq<int>, demographics: seq<Demographic>, keys: seq<string>)
    returns (alerts: seq<Alert>)
    requires |predictions| == |demographics|
    ensures alerts == MonitorAlerts(predictions, demographics, keys)
  {
    alerts := [];
    var i := 0;
    while i < |keys|
      invariant 0 <= i <= |keys|
      invariant alerts == MonitorAlerts(predictions, demographics, keys[..i])
    {
      var values := Column(demographics, keys[i]);
      MonitorAlertsAppend(predictions, demographics, keys, i);
      if |Dedup(values)| > 1 {
        var groupRates := SelectionRates(predictions, values);
        if Spread(predictions, values) > RateSpreadThreshold {
          alerts := alerts + [Alert(keys[i], groupRates)];
        }
      }
      i := i + 1;
    }
    assert keys[..|keys|] == keys;
  }

  /** No two groups' rates differ by more than the spread ... */
  lemma SpreadBounds(yPred: seq<int>, values: seq<string>, g: string, h: string)
    requires |yPred| == |values| && |values| > 0 && g in values && h in values
    ensures Rate(yPred, values, g) - Rate(yPred, values, h) <= Spread(yPred, values)
  {
    var groups := Dedup(values);
    assert values[0] in groups && g in groups && h in groups;
    var a :| 0 <= a < |groups| && groups[a] == g;
    var b :| 0 <= b < |groups| && groups[b] == h;
    assert Rate(yPred, values, groups[a]) <= MaxRate(yPred, values, groups);
    assert Rate(yPred, values, groups[b]) >= MinRate(yPred, values, groups);
  }

  /** ... and is the difference of two of them. */
  lemma SpreadAttained(yPred: seq<int>, values: seq<string>) returns (g: string, h: string)
    requires |yPred| == |values| && |values| > 0
    ensures g in values && h in values
    ensures Rate(yPred, values, g) - Rate(yPred, values, h) == Spread(yPred, values)
  {
    var groups := Dedup(values);
    assert values[0] in groups;
    var i :| 0 <= i < |groups| && Rate(yPred, values, groups[i]) == MaxRate(yPred, values, groups);
    var j :| 0 <= j < |groups| && Rate(yPred, values, groups[j]) == MinRate(yPred, values, groups);
    g, h := groups[i], groups[j];
    assert g in groups && h in groups;
  }

  /** Two values with different rates make two groups. */
  lemma TwoGroups(values: seq<string>, g: string, h: string)
    requires g in values && h in values && g != h
    ensures |Dedup(values)| > 1
  {
    var groups := Dedup(values);
    assert g in groups && h in groups;
    var a :| 0 <= a < |groups| && groups[a] == g;
    var b :| 0 <= b < |groups| && groups[b] == h;
    assert a != b;
  }

  /** An attribute alerts exactly when two of its groups have selection
      rates more than 0.15 apart. */
  lemma AlertIffSomePairApart(yPred: seq<int>, values: seq<string>)
    requires |yPred| == |values| && |values| > 0
    ensures Alerts(yPred, values) <==>
      exists g, h :: g in values && h in values && Rate(yPred, values, g) - Rate(yPred, values, h) > RateSpreadThreshold
  {
    if Alerts(yPred, values) {
      var g, h := SpreadAttained(yPred, values);
      assert Rate(yPred, values, g) - Rate(yPred, values, h) > RateSpreadThreshold;
    }
    if exists g, h :: g in values && h in values && Rate(yPred, values, g) - Rate(yPred, values, h) > RateSpreadThreshold {
      var g, h :| g in values && h in values && Rate(yPred, values, g) - Rate(yPred, values, h) > RateSpreadThreshold;
      SpreadBounds(yPred, values, g, h);
      TwoGroups(values, g, h);
    }
  }
}
