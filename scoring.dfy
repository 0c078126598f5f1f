/** The accuracy scorer `calculate_accuracy_score` (tools.py): a 0-100
    score for how well the retrieved manual chunks fit the user's appliance,
    made of the mean similarity of the top three results, a model-number
    match and a brand match. */
module Scoring {
  import opened Values
  import opened Text
  import opened Seqs
  import opened Numeric
  import opened VectorStore

  datatype Breakdown = Breakdown(similarity: real, modelMatch: nat, brandMatch: nat)

  /** The extra fields of the wrong-appliance answer; its "error" field is
      always `MismatchError`. */
  datatype Mismatch = Mismatch(errorMessage: string, detectedType: string, expectedType: string, userModel: string)

  datatype AccuracyScore = AccuracyScore(accuracy: real, level: string, breakdown: Breakdown, mismatch: Option<Mismatch>)

  const MismatchError := "appliance_type_mismatch"
  const ZeroBreakdown := Breakdown(0.0, 0, 0)

  /** Every result's value under `key`, when present, is a string (reading
      it with `.upper()` raises otherwise, and the scorer does not catch
      that). */
  predicate StringValued(hits: seq<Hit>, key: string) {
    forall i :: 0 <= i < |hits| ==> (key in hits[i].metadata ==> hits[i].metadata[key].Str?)
  }

  /** `result.get("metadata", {}).get(key, "").upper()` for every result. */
  function Fields(hits: seq<Hit>, key: string): (fs: seq<string>)
    requires StringValued(hits, key)
    ensures |fs| == |hits|
  {
    if hits == [] then []
    else
      assert StringValued(hits[1..], key) by {
        assert forall i :: 1 <= i < |hits| ==> hits[1..][i - 1] == hits[i];
      }
      [Upper(GetStr(hits[0].metadata, key, ""))] + Fields(hits[1..], key)
  }

  lemma {:induction false} FieldAt(hits: seq<Hit>, key: string, k: nat)
    requires StringValued(hits, key) && k < |hits|
    ensures Fields(hits, key)[k] == Upper(GetStr(hits[k].metadata, key, ""))
  {
    if k > 0 {
      assert StringValued(hits[1..], key) by {
        assert forall i :: 1 <= i < |hits| ==> hits[1..][i - 1] == hits[i];
      }
      FieldAt(hits[1..], key, k - 1);
    }
  }

  // ---------------------------------------------------------------- similarity

  /** The scores of the first `min(3, len(results))` results. */
  function TopScores(results: seq<Hit>): (s: seq<real>)
    ensures |s| == if |results| < 3 then |results| else 3
  {
    var top := Prefix(results, 3);
    seq(|top|, i requires 0 <= i < |top| => top[i].score)
  }

  /** `avg_similarity`: 100 times the mean of the top scores. */
  function Similarity(results: seq<Hit>): real
    requires results != []
  {
    Sum(TopScores(results)) / |TopScores(results)| as real * 100.0
  }

  // ---------------------------------------------------------------- model match

  /** The user's model as the model scan cleans it: upper-cased, `"*"`
      removed, ends stripped. */
  function UserModelClean(userModel: string): string {
    Strip(RemoveAll(Upper(userModel), "*"))
  }

  /** The series: the letters and digits among the first 8 characters. */
  function Series(uc: string): string {
    Filter(Take(uc, 8), IsAlnum)
  }

  /** Some whitespace-separated piece of the cleaned model longer than 3
      characters occurs in the result's model. */
  predicate LongPartIn(parts: seq<string>, rm: string) {
    exists i :: 0 <= i < |parts| && |parts[i]| > 3 && Contains(rm, parts[i])
  }

  /** What one result contributes to the model scan: 0 for an empty model,
      100 for containment either way, 80 for a series match, 50 for a
      shared long piece. */
  function Grade(uc: string, series: string, rm: string): (g: nat)
    ensures g == 0 || g == 50 || g == 80 || g == 100
  {
    if rm == [] then 0
    else if Contains(rm, uc) || Contains(uc, rm) then 100
    else if series != [] && Contains(rm, series) then 80
    else if LongPartIn(Words(uc), rm) then 50
    else 0
  }

  function Grades(uc: string, series: string, rms: seq<string>): (gs: seq<nat>)
    ensures |gs| == |rms|
    ensures forall i :: 0 <= i < |rms| ==> gs[i] == Grade(uc, series, rms[i])
  {
    seq(|rms|, i requires 0 <= i < |rms| => Grade(uc, series, rms[i]))
  }

  /** The index of the first grade that stops the scan (80 or 100). */
  function FirstDecisive(gs: seq<nat>): (r: Option<nat>)
    ensures r.Some? ==> r.value < |gs| && gs[r.value] >= 80
    ensures r.Some? ==> forall j :: 0 <= j < r.value ==> gs[j] < 80
    ensures r.None? ==> forall j :: 0 <= j < |gs| ==> gs[j] < 80
  {
    if gs == [] then None
    else if gs[0] >= 80 then Some(0)
    else match FirstDecisive(gs[1..])
      case None => None
      case Some(k) => Some(k + 1)
  }

  /** The outcome of a scan that stops at the first decisive grade and
      otherwise keeps 50 once any result earned it. */
  function Outcome(gs: seq<nat>): nat {
    match FirstDecisive(gs)
    case Some(k) => gs[k]
    case None => if 50 in gs then 50 else 0
  }

  /** `model_match`: 0 without a (truthy) user model. */
  function ModelMatchOf(userModel: Option<string>, results: seq<Hit>): nat
    requires StringValued(results, "model_number")
  {
    if !Truthy(userModel) then 0
    else
      var uc := UserModelClean(userModel.value);
      Outcome(Grades(uc, Series(uc), Fields(results, "model_number")))
  }

  /** The model scan: stops at the first 100 or 80, while a 50 does not
      stop it. */
  method ScanModelMatch(userModel: Option<string>, results: seq<Hit>) returns (modelMatch: nat)
    requires StringValued(results, "model_number")
    ensures modelMatch == ModelMatchOf(userModel, results)
  {
    modelMatch := 0;
    if !Truthy(userModel) {
      return;
    }
    var uc := UserModelClean(userModel.value);
    modelMatch := ScanGrades(uc, Series(uc), results);
  }

  /** The loop of the model scan over the results, for the cleaned model
      `uc` and its series. */
  method ScanGrades(uc: string, series: string, results: seq<Hit>) returns (modelMatch: nat)
    requires StringValued(results, "model_number")
    ensures modelMatch == Outcome(Grades(uc, series, Fields(results, "model_number")))
  {
    modelMatch := 0;
    ghost var gs := Grades(uc, series, Fields(results, "model_number"));
    var i := 0;
    while i < |results|
      invariant i <= |results|
      invariant forall j :: 0 <= j < i ==> gs[j] < 80
      invariant modelMatch == if 50 in gs[..i] then 50 else 0
    {
      FieldAt(results, "model_number", i);
      var grade := GradeResult(uc, series, Upper(GetStr(results[i].metadata, "model_number", "")));
      assert gs[..i + 1] == gs[..i] + [gs[i]];
      if grade >= 80 {
        modelMatch := grade;
        assert FirstDecisive(gs) == Some(i);
        return;
      } else if grade == 50 {
        modelMatch := 50;
      }
      i := i + 1;
    }
    assert gs[..i] == gs;
  }

  /** One step of the model scan: the grade the branches give a result's
      upper-cased model number. */
  method GradeResult(uc: string, series: string, resultModel: string) returns (grade: nat)
    ensures grade == Grade(uc, series, resultModel)
  {
    grade := 0;
    if resultModel != [] {
      if Contains(resultModel, uc) || Contains(uc, resultModel) {
        grade := 100;
      } else if series != [] && Contains(resultModel, series) {
        grade := 80;
      } else if LongPartIn(Words(uc), resultModel) {
        grade := 50;
      }
    }
  }

  // ---------------------------------------------------------------- brand match

  /** A result brand matches the user's: containment either way, or some
      word of the user's brand occurs in it. */
  predicate BrandHit(bu: string, rb: string) {
    rb != [] && (Contains(rb, bu) || Contains(bu, rb)
                 || exists w :: 0 <= w < |Words(bu)| && Contains(rb, Words(bu)[w]))
  }

  /** A result brand agrees with the naming scheme of the user's model
      (substring containment, not prefixes). */
  predicate Inferred(mu: string, rb: string) {
    rb != [] &&
    ((Contains(rb, "SAMSUNG") && (Contains(mu, "RS") || Contains(mu, "RF") || Contains(mu, "MC")))
     || (Contains(rb, "LG") && (Contains(mu, "LRM") || Contains(mu, "LFX")))
     || (Contains(rb, "GE") && (Contains(mu, "GNE") || Contains(mu, "GTE"))))
  }

  /** Some result brand matches the user's brand `bu`. */
  predicate AnyBrandHit(bu: string, rbs: seq<string>) {
    exists i :: 0 <= i < |rbs| && BrandHit(bu, rbs[i])
  }

  /** Some result brand fits the naming of the user's model `mu`. */
  predicate AnyInferred(mu: string, rbs: seq<string>) {
    exists i :: 0 <= i < |rbs| && Inferred(mu, rbs[i])
  }

  /** `brand_match`: 100 when a truthy user brand matches some result's
      brand; without a user brand but with a model, 80 when some result's
      brand fits the model's naming; 0 otherwise. */
  function BrandMatchOf(userBrand: Option<string>, userModel: Option<string>, results: seq<Hit>): (b: nat)
    requires StringValued(results, "brand")
    ensures b == 0 || b == 80 || b == 100
  {
    var rbs := Fields(results, "brand");
    if Truthy(userBrand) then
      if AnyBrandHit(Upper(userBrand.value), rbs) then 100 else 0
    else if Truthy(userModel) then
      if AnyInferred(Upper(userModel.value), rbs) then 80 else 0
    else 0
  }

  /** The brand scan: stops at the first result brand that matches. */
  method ScanUserBrand(bu: string, results: seq<Hit>) returns (found: bool)
    requires StringValued(results, "brand")
    ensures found <==> AnyBrandHit(bu, Fields(results, "brand"))
  {
    ghost var rbs := Fields(results, "brand");
    for i := 0 to |results|
      invariant forall j :: 0 <= j < i ==> !BrandHit(bu, rbs[j])
    {
      FieldAt(results, "brand", i);
      var resultBrand := Upper(GetStr(results[i].metadata, "brand", ""));
      if resultBrand != [] {
        if Contains(resultBrand, bu) || Contains(bu, resultBrand) {
          return true;
        } else if exists w :: 0 <= w < |Words(bu)| && Contains(resultBrand, Words(bu)[w]) {
          return true;
        }
      }
    }
    return false;
  }

  /** The inference scan: stops at the first result brand that fits the
      naming of the user's model. */
  method ScanInferredBrand(mu: string, results: seq<Hit>) returns (found: bool)
    requires StringValued(results, "brand")
    ensures found <==> AnyInferred(mu, Fields(results, "brand"))
  {
    ghost var rbs := Fields(results, "brand");
    for i := 0 to |results|
      invariant forall j :: 0 <= j < i ==> !Inferred(mu, rbs[j])
    {
      FieldAt(results, "brand", i);
      var resultBrand := Upper(GetStr(results[i].metadata, "brand", ""));
      if resultBrand != [] {
        if Contains(resultBrand, "SAMSUNG") && (Contains(mu, "RS") || Contains(mu, "RF") || Contains(mu, "MC")) {
          return true;
        } else if Contains(resultBrand, "LG") && (Contains(mu, "LRM") || Contains(mu, "LFX")) {
          return true;
        } else if Contains(resultBrand, "GE") && (Contains(mu, "GNE") || Contains(mu, "GTE")) {
          return true;
        }
      }
    }
    return false;
  }

  /** The brand scan and, when it finds nothing and no brand was given,
      the inference scan. */
  method ScanBrandMatch(userBrand: Option<string>, userModel: Option<string>, results: seq<Hit>)
    returns (brandMatch: nat)
    requires StringValued(results, "brand")
    ensures brandMatch == BrandMatchOf(userBrand, userModel, results)
  {
    brandMatch := 0;
    if Truthy(userBrand) {
      var found := ScanUserBrand(Upper(userBrand.value), results);
      if found {
        brandMatch := 100;
      }
    }
    if brandMatch == 0 && !Truthy(userBrand) && Truthy(userModel) {
      var found := ScanInferredBrand(Upper(userModel.value), results);
      if found {
        brandMatch := 80;
      }
    }
  }

  // ---------------------------------------------------------------- the score

  /** The weighted sum: 55% similarity, 25% model match, 20% brand match. */
  function Weighted(similarity: real, modelMatch: nat, brandMatch: nat): real {
    similarity * 0.55 + modelMatch as real * 0.25 + brandMatch as real * 0.20
  }

  /** The level, with inclusive cut-offs 90 / 75 / 60 / 40. */
  function LevelOf(accuracy: real): (level: string)
    ensures level in {"Very High", "High", "Medium", "Low", "Very Low"}
    ensures level == "Very High" <==> accuracy >= 90.0
    ensures level == "Very Low" <==> accuracy < 40.0
  {
    if accuracy >= 90.0 then "Very High"
    else if accuracy >= 75.0 then "High"
    else if accuracy >= 60.0 then "Medium"
    else if accuracy >= 40.0 then "Low"
    else "Very Low"
  }

  /** The detector found the model under another appliance type than the
      one claimed. */
  predicate WrongAppliance(userModel: Option<string>, userType: Option<string>, detected: Option<string>) {
    Truthy(userModel) && Truthy(userType) && Truthy(detected) && detected.value != Lower(userType.value)
  }

  function MismatchMessage(userModel: string, actual: string, expected: string): string {
    "\U{26A0}\U{FE0F} ERROR: The model " + userModel + " is a " + actual + ", not a " + expected
      + ". Please provide the correct " + expected + " model number."
  }

  /** `calculate_accuracy_score`, where `detected` is what the detector
      answers for the user's model and brand (consulted only when both a
      model and a type are given). */
  function AccuracyOf(results: seq<Hit>, userModel: Option<string>, userBrand: Option<string>,
                      userType: Option<string>, detected: Option<string>): (r: AccuracyScore)
    requires StringValued(results, "model_number") && StringValued(results, "brand")
    ensures results == [] ==>
      r == AccuracyScore(0.0, "No Information", ZeroBreakdown, None)
    ensures results != [] && WrongAppliance(userModel, userType, detected) ==>
      r.accuracy == 0.0 && r.level == "Wrong Appliance Type" && r.breakdown == ZeroBreakdown
      && r.mismatch == Some(Mismatch(MismatchMessage(userModel.value, detected.value, Lower(userType.value)),
                                     detected.value, Lower(userType.value), userModel.value))
    ensures r.mismatch.None? ==> r.breakdown.modelMatch in {0, 50, 80, 100} && r.breakdown.brandMatch in {0, 80, 100}
  {
    if results == [] then AccuracyScore(0.0, "No Information", ZeroBreakdown, None)
    else if WrongAppliance(userModel, userType, detected) then
      var expected := Lower(userType.value);
      AccuracyScore(0.0, "Wrong Appliance Type", ZeroBreakdown,
                    Some(Mismatch(MismatchMessage(userModel.value, detected.value, expected),
                                  detected.value, expected, userModel.value)))
    else
      var s := Similarity(results);
      var m := ModelMatchOf(userModel, results);
      var b := BrandMatchOf(userBrand, userModel, results);
      ModelMatchValues(userModel, results);
      var a := Weighted(s, m, b);
      AccuracyScore(Round1(a), LevelOf(a), Breakdown(Round1(s), m, b), None)
  }

  /** The scorer as the source runs it: the checks in order, then the
      three scans. */
  method CalculateAccuracyScore(results: seq<Hit>, userModel: Option<string>, userBrand: Option<string>,
                                userType: Option<string>, detected: Option<string>)
    returns (score: AccuracyScore)
    requires StringValued(results, "model_number") && StringValued(results, "brand")
    ensures score == AccuracyOf(results, userModel, userBrand, userType, detected)
  {
    if results == [] {
      return AccuracyScore(0.0, "No Information", ZeroBreakdown, None);
    }
    if Truthy(userModel) && Truthy(userType) {
      var expected := Lower(userType.value);
      if Truthy(detected) && detected.value != expected {
        return AccuracyScore(0.0, "Wrong Appliance Type", ZeroBreakdown,
                             Some(Mismatch(MismatchMessage(userModel.value, detected.value, expected),
                                           detected.value, expected, userModel.value)));
      }
    }
    var similarity := Similarity(results);
    var modelMatch := ScanModelMatch(userModel, results);
    var brandMatch := ScanBrandMatch(userBrand, userModel, results);
    var accuracy := Weighted(similarity, modelMatch, brandMatch);
    var level := LevelOf(accuracy);
    score := AccuracyScore(Round1(accuracy), level, Breakdown(Round1(similarity), modelMatch, brandMatch), None);
  }

  // ---------------------------------------------------------------- properties

  /** `model_match` is always 0, 50, 80 or 100. */
  lemma ModelMatchValues(userModel: Option<string>, results: seq<Hit>)
    requires StringValued(results, "model_number")
    ensures ModelMatchOf(userModel, results) in {0, 50, 80, 100}
  {
    if Truthy(userModel) {
      var uc := UserModelClean(userModel.value);
      var gs := Grades(uc, Series(uc), Fields(results, "model_number"));
      match FirstDecisive(gs)
      case Some(k) =>
      case None =>
    }
  }

  /** Appending results never lowers the scan's outcome: a decisive grade
      is kept, and a 50 stays unless a later result decides higher. */
  lemma OutcomeAppendNeverLowers(a: seq<nat>, b: seq<nat>)
    requires forall i :: 0 <= i < |a| ==> a[i] in {0, 50, 80, 100}
    ensures Outcome(a + b) >= Outcome(a)
  {
    var ab := a + b;
    match FirstDecisive(a)
    case Some(k) =>
      assert forall j :: 0 <= j <= k ==> ab[j] == a[j];
      assert FirstDecisive(ab) == Some(k);
    case None =>
      if 50 in a {
        var i :| 0 <= i < |a| && a[i] == 50;
        assert ab[i] == 50;
      }
  }

  /** A user model made only of `'*'` and whitespace is truthy but cleans
      to "", which every non-empty result model contains: the first such
      result scores 100. */
  lemma StarOnlyModelMatchesAnyResult(userModel: string, results: seq<Hit>, k: nat)
    requires userModel != [] && UserModelClean(userModel) == []
    requires StringValued(results, "model_number") && k < |results|
    requires Fields(results, "model_number")[k] != []
    requires forall j :: 0 <= j < k ==> Fields(results, "model_number")[j] == []
    ensures ModelMatchOf(Some(userModel), results) == 100
  {
    EmptyModelGrades(Series([]), Fields(results, "model_number"), k);
  }

  /** With an empty cleaned model, empty result models grade 0 and the
      first non-empty one grades 100 and decides the scan. */
  lemma EmptyModelGrades(series: string, rms: seq<string>, k: nat)
    requires k < |rms| && rms[k] != []
    requires forall j :: 0 <= j < k ==> rms[j] == []
    ensures Outcome(Grades([], series, rms)) == 100
  {
    var gs := Grades([], series, rms);
    ContainsSelf(rms[k]);
    assert gs[k] == 100;
    assert forall j :: 0 <= j < k ==> gs[j] == 0;
    assert FirstDecisive(gs) == Some(k);
  }

  /** Results without a `model_number` key (what ingestion writes: it uses
      "model") never earn a model match. */
  lemma NoModelNumberNoModelMatch(userModel: Option<string>, results: seq<Hit>)
    requires forall i :: 0 <= i < |results| ==> "model_number" !in results[i].metadata
    ensures StringValued(results, "model_number")
    ensures ModelMatchOf(userModel, results) == 0
  {
    if Truthy(userModel) {
      var uc := UserModelClean(userModel.value);
      var rms := Fields(results, "model_number");
      forall i | 0 <= i < |results|
        ensures rms[i] == []
      {
        FieldAt(results, "model_number", i);
      }
      var gs := Grades(uc, Series(uc), rms);
      assert forall i :: 0 <= i < |gs| ==> gs[i] == 0;
      assert 50 !in gs;
    }
  }

  /** With every score in [0, 1] the accuracy and the similarity reported
      lie in [0, 100]. */
  lemma AccuracyInRange(results: seq<Hit>, userModel: Option<string>, userBrand: Option<string>,
                        userType: Option<string>, detected: Option<string>)
    requires StringValued(results, "model_number") && StringValued(results, "brand")
    requires forall i :: 0 <= i < |results| ==> 0.0 <= results[i].score <= 1.0
    ensures var r := AccuracyOf(results, userModel, userBrand, userType, detected);
      0.0 <= r.accuracy <= 100.0 && 0.0 <= r.breakdown.similarity <= 100.0
  {
    if results != [] && !WrongAppliance(userModel, userType, detected) {
      var top := TopScores(results);
      assert forall i :: 0 <= i < |top| ==> 0.0 <= top[i] <= 1.0;
      SumBounds(top, 0.0, 1.0);
      QuotientBetween(Sum(top), |top| as real, 0.0, 1.0);
      var s := Similarity(results);
      assert 0.0 <= s <= 100.0;
      var m := ModelMatchOf(userModel, results);
      var b := BrandMatchOf(userBrand, userModel, results);
      ModelMatchValues(userModel, results);
      var a := Weighted(s, m, b);
      assert 0.0 <= a <= 100.0;
      Round1Percent(a);
      Round1Percent(s);
    }
  }

  /** The level comes from the unrounded accuracy: 89.96 is reported as
      90.0 with level "High". */
  lemma LevelUsesUnroundedAccuracy()
    ensures Round1(89.96) == 90.0 && LevelOf(89.96) == "High"
  {
    assert (899.6).Floor == 899;
  }

  /** The wrong-appliance answer is given exactly when there are results
      and the detector names another type than the one claimed; in
      particular a detector that answers `None` never blocks. */
  lemma WrongTypeExactlyOnMismatch(results: seq<Hit>, userModel: Option<string>, userBrand: Option<string>,
                                   userType: Option<string>, detected: Option<string>)
    requires StringValued(results, "model_number") && StringValued(results, "brand")
    ensures AccuracyOf(results, userModel, userBrand, userType, detected).level == "Wrong Appliance Type"
      <==> results != [] && WrongAppliance(userModel, userType, detected)
  {
  }

  /** Three results scoring 0.92, 0.88 and 0.85 whose first result carries
      the user's model and brand exactly: similarity 88.3, model and brand
      match 100, accuracy 93.6, level "Very High". */
  lemma ThreeStrongResultsScoreVeryHigh(results: seq<Hit>, model: string, brand: string)
    requires |results| == 3
    requires results[0].score == 0.92 && results[1].score == 0.88 && results[2].score == 0.85
    requires StringValued(results, "model_number") && StringValued(results, "brand")
    requires model != [] && '*' !in model && brand != []
    requires "model_number" in results[0].metadata && results[0].metadata["model_number"] == Str(model)
    requires "brand" in results[0].metadata && results[0].metadata["brand"] == Str(brand)
    ensures var r := AccuracyOf(results, Some(model), Some(brand), None, None);
      r.breakdown == Breakdown(88.3, 100, 100) && r.accuracy == 93.6 && r.level == "Very High"
  {
    FieldAt(results, "model_number", 0);
    FieldAt(results, "brand", 0);
    var uc := UserModelClean(model);
    var rm := Upper(model);
    assert Fields(results, "model_number")[0] == rm;
    StarFreeUpper(model);
    RemoveAllOneChar(rm, '*');
    RemoveCharAbsent(rm, '*');
    StripInside(rm);
    var gs := Grades(uc, Series(uc), Fields(results, "model_number"));
    assert gs[0] == 100;
    assert FirstDecisive(gs) == Some(0);
    ContainsSelf(Upper(brand));
    assert BrandHit(Upper(brand), Fields(results, "brand")[0]);
    var top := TopScores(results);
    assert top == [0.92, 0.88, 0.85];
    assert Sum(top[2..]) == 0.85;
    assert Sum(top[1..]) == 0.88 + 0.85 by { assert top[1..][1..] == top[2..]; }
    assert Sum(top) == 2.65;
    var s := Similarity(results);
    assert s == 2.65 / 3.0 * 100.0;
    assert (883.3333333333333).Floor == 883;
    assert Round1(s) == 88.3 by {
      assert s * 10.0 == 2650.0 / 3.0;
      assert (2650.0 / 3.0).Floor == 883;
    }
    var a := Weighted(s, 100, 100);
    assert a * 10.0 == 2650.0 / 3.0 * 0.55 + 450.0;
    assert (a * 10.0).Floor == 935;
  }

  /** Upper-casing keeps a string free of `'*'`. */
  lemma StarFreeUpper(s: string)
    requires '*' !in s
    ensures '*' !in Upper(s)
  {
    forall i | 0 <= i < |s|
      ensures Upper(s)[i] != '*'
    {
    }
  }

  /** Removing a character that does not occur changes nothing. */
  lemma {:induction false} RemoveCharAbsent(s: string, c: char)
    requires c !in s
    ensures RemoveChar(s, c) == s
  {
    if s != [] {
      assert s[0] != c;
      RemoveCharAbsent(s[1..], c);
      assert [s[0]] + s[1..] == s;
    }
  }

  /** The stripped string occurs inside the original. */
  lemma StripInside(s: string)
    ensures Contains(s, Strip(s))
  {
    var l := StripLeft(s);
    StripLeftShape(s);
    StripRightShape(l);
    assert Strip(s) <= s[|s| - |l|..];
  }
}
