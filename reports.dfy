/** The per-context accuracy report (generate_individual_accuracy_reports.py):
    a user context's appliance and problem become a query for the manual
    search tool, and the tool's answer is turned into a report with the
    accuracy assessment, its interpretation and the three best results.
    Reading the context file and the tool's answer are parameters. */
module AccuracyReports {
  import opened Values
  import opened Text
  import opened VectorStore
  import opened Scoring
  import ManualSearch
  import Numeric

  /** A user context file's contents; the optional keys are `None` when
      absent. */
  datatype UserContext = UserContext(brand: string, model: string, applianceType: string, description: string,
                                     symptoms: seq<string>, errorCodes: Option<seq<string>>,
                                     attemptedFixes: Option<seq<string>>, userId: Option<string>,
                                     sessionId: Option<string>, purchaseDate: Option<string>)

  /** The fields of a wrong-appliance answer, copied into the report. */
  datatype ErrorDetails = ErrorDetails(hasError: bool, errorType: string, errorMessage: string,
                                       detectedModelType: string, expectedType: string, userModel: string)

  /** One of the best results: rank, score, where it came from and its
      text with a 300-character preview. */
  datatype TopResult = TopResult(rank: nat, relevanceScore: real, filename: Value, brand: Value, model: Value,
                                 applianceType: Value, contentPreview: string, fullContent: string)

  datatype AccuracyReport = AccuracyReport(
    contextFile: string, userId: string, sessionId: string,
    brand: string, model: string, applianceType: string, purchaseDate: Option<string>,
    summary: string, symptoms: seq<string>, errorCodes: seq<string>, attemptedFixes: seq<string>,
    queryGenerated: string,
    totalResultsFound: nat, foundRelevantInformation: bool, resultsAfterFiltering: nat,
    minSimilarityThreshold: real,
    overallAccuracy: real, accuracyLevel: string, breakdown: Breakdown,
    errorDetails: Option<ErrorDetails>,
    willSolveProblem: bool, confidenceMessage: string, recommendation: string,
    topResults: seq<TopResult>)

  const NoManualAdvice := "No relevant manual information found. Consider contacting professional service or checking if the correct manual is available."

  /** The query sent to the search tool: the appliance type, a space and
      the problem description. */
  function Query(ctx: UserContext): string {
    ctx.applianceType + " " + ctx.description
  }

  /** The opening word of the confidence message. */
  function ConfidenceWord(accuracy: real): string {
    if accuracy >= 90.0 then "Very High"
    else if accuracy >= 75.0 then "High"
    else if accuracy >= 60.0 then "Medium"
    else if accuracy >= 40.0 then "Low"
    else "Very Low"
  }

  /** The sentence after the opening word. */
  function ConfidenceDetail(accuracy: real): string {
    if accuracy >= 90.0 then "The troubleshooting steps will very likely solve this specific problem for this appliance model."
    else if accuracy >= 75.0 then "The troubleshooting steps should effectively address this problem."
    else if accuracy >= 60.0 then "The steps might help but may not fully resolve the issue."
    else if accuracy >= 40.0 then "The steps may not directly address this specific problem."
    else "No relevant information found or steps unlikely to solve this problem."
  }

  /** `_get_confidence_message`: the word, a dash and the sentence. */
  function ConfidenceMessage(accuracy: real): string {
    ConfidenceWord(accuracy) + " - " + ConfidenceDetail(accuracy)
  }

  /** `_get_recommendation`. */
  function Recommendation(accuracy: real, numResults: int): string {
    if accuracy >= 90.0 then "Proceed with the recommended troubleshooting steps. High probability of resolving the issue."
    else if accuracy >= 75.0 then "Follow the troubleshooting steps. Good chance of resolving the issue."
    else if accuracy >= 60.0 then "Try the suggested steps, but may need additional assistance."
    else if numResults == 0 then NoManualAdvice
    else "Low confidence in current results. May need professional service or additional troubleshooting resources."
  }

  /** The entry for the result ranked `rank`. */
  function TopResultOf(rank: nat, hit: Hit): (t: TopResult)
    ensures t.rank == rank && t.relevanceScore == hit.score && t.fullContent == hit.text
    ensures t.contentPreview <= t.fullContent && |t.contentPreview| == if |hit.text| < 300 then |hit.text| else 300
  {
    TopResult(rank, hit.score, MetaOr(hit.metadata, "source"), MetaOr(hit.metadata, "brand"),
              MetaOr(hit.metadata, "model_number"), MetaOr(hit.metadata, "appliance_type"),
              Take(hit.text, 300), hit.text)
  }

  /** The first three results (fewer if there are fewer), ranked from 1 in
      result order. */
  function TopResults(results: seq<Hit>): (ts: seq<TopResult>)
    ensures |ts| == if |results| < 3 then |results| else 3
    ensures forall i :: 0 <= i < |ts| ==> ts[i] == TopResultOf(i + 1, results[i])
  {
    var n := if |results| < 3 then |results| else 3;
    seq(n, i requires 0 <= i < n => TopResultOf(i + 1, results[i]))
  }

  /** The error details: present exactly when the answer is the
      wrong-appliance one. */
  function ErrorDetailsOf(score: AccuracyScore): Option<ErrorDetails> {
    if score.mismatch.Some? then
      var m := score.mismatch.value;
      Some(ErrorDetails(true, MismatchError, m.errorMessage, m.detectedType, m.expectedType, m.userModel))
    else None
  }

  function OrEmpty(xs: Option<seq<string>>): seq<string> {
    if xs.Some? then xs.value else []
  }

  function OrUnknown(s: Option<string>): string {
    if s.Some? then s.value else "unknown"
  }

  /** The report for a context file from the search tool's answer to the
      context's query, with the given best results. */
  function ReportWith(contextFile: string, ctx: UserContext, answer: ManualSearch.ToolAnswer,
                      tops: seq<TopResult>): AccuracyReport {
    var score := answer.accuracy;
    AccuracyReport(
      LastSegment(contextFile, '/'), OrUnknown(ctx.userId), OrUnknown(ctx.sessionId),
      ctx.brand, ctx.model, ctx.applianceType, ctx.purchaseDate,
      ctx.description, ctx.symptoms, OrEmpty(ctx.errorCodes), OrEmpty(ctx.attemptedFixes),
      Query(ctx),
      answer.numResults, answer.foundInformation, answer.filteredCount, answer.minSimilarityThreshold,
      score.accuracy, score.level, score.breakdown,
      ErrorDetailsOf(score),
      score.accuracy >= 90.0, ConfidenceMessage(score.accuracy), Recommendation(score.accuracy, answer.numResults),
      tops)
  }

  /** The report `generate_accuracy_report` builds. */
  function ReportOf(contextFile: string, ctx: UserContext, answer: ManualSearch.ToolAnswer): AccuracyReport {
    ReportWith(contextFile, ctx, answer, TopResults(answer.results))
  }

  /** The loop appending the best results. */
  method CollectTopResults(results: seq<Hit>) returns (tops: seq<TopResult>)
    ensures tops == TopResults(results)
  {
    tops := [];
    if results != [] {
      var n := if |results| < 3 then |results| else 3;
      for i := 0 to n
        invariant tops == TopResults(results)[..i]
      {
        tops := tops + [TopResultOf(i + 1, results[i])];
      }
      assert TopResults(results)[..n] == TopResults(results);
    }
  }

  /** `generate_accuracy_report`: the report, then its best results. */
  method GenerateAccuracyReport(contextFile: string, ctx: UserContext, answer: ManualSearch.ToolAnswer)
    returns (report: AccuracyReport)
    ensures report == ReportOf(contextFile, ctx, answer)
  {
    var tops := CollectTopResults(answer.results);
    report := ReportWith(contextFile, ctx, answer, tops);
  }

  // ---------------------------------------------------------------- properties

  /** The confidence message opens with the level the scorer gives the
      same value. */
  lemma ConfidenceAgreesWithLevel(accuracy: real)
    ensures StartsWith(ConfidenceMessage(accuracy), LevelOf(accuracy) + " - ")
  {
    assert ConfidenceWord(accuracy) == LevelOf(accuracy);
    assert ConfidenceMessage(accuracy) == (LevelOf(accuracy) + " - ") + ConfidenceDetail(accuracy);
  }

  /** From 60 up the recommendation depends on the accuracy alone; below
      60 it is the no-manual advice exactly when there were no results. */
  lemma RecommendationCases(accuracy: real, numResults: int)
    ensures accuracy >= 60.0 ==> Recommendation(accuracy, numResults) == Recommendation(accuracy, 0)
    ensures accuracy < 60.0 ==> (Recommendation(accuracy, numResults) == NoManualAdvice <==> numResults == 0)
  {
  }

  /** The interpretation: the problem is expected to be solved exactly
      when the reported accuracy is at least 90, which is exactly when the
      confidence is "Very High"; error details appear exactly for the
      wrong-appliance answer and then name the mismatch. */
  lemma ReportInterpretation(contextFile: string, ctx: UserContext, answer: ManualSearch.ToolAnswer)
    ensures var r := ReportOf(contextFile, ctx, answer);
      (r.willSolveProblem <==> r.overallAccuracy >= 90.0)
      && (r.willSolveProblem <==> ConfidenceWord(r.overallAccuracy) == "Very High")
      && StartsWith(r.confidenceMessage, ConfidenceWord(r.overallAccuracy) + " - ")
      && (r.errorDetails.Some? <==> answer.accuracy.mismatch.Some?)
      && (r.errorDetails.Some? ==> r.errorDetails.value.hasError && r.errorDetails.value.errorType == MismatchError)
      && r.queryGenerated == ctx.applianceType + " " + ctx.description
  {
    ConfidenceAgreesWithLevel(answer.accuracy.accuracy);
  }

  /** The report reads the rounded accuracy while the scorer's level came
      from the unrounded one: an accuracy of 89.96 is reported as 90.0
      with level "High", yet the report promises the problem will be
      solved with "Very High" confidence. */
  lemma ReportCanOutrankLevel(contextFile: string, ctx: UserContext, answer: ManualSearch.ToolAnswer)
    requires answer.accuracy.accuracy == Numeric.Round1(89.96) && answer.accuracy.level == LevelOf(89.96)
    ensures var r := ReportOf(contextFile, ctx, answer);
      r.accuracyLevel == "High" && r.willSolveProblem
      && ConfidenceWord(r.overallAccuracy) == "Very High"
      && StartsWith(r.confidenceMessage, ConfidenceWord(r.overallAccuracy) + " - ")
  {
    LevelUsesUnroundedAccuracy();
    ReportInterpretation(contextFile, ctx, answer);
  }
}
