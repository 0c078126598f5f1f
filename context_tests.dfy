/** The batch accuracy test (test_all_contexts.py): every user context
    file is run through the manual search tool, one result is recorded per
    file (a failure is recorded with score 0 and level "Error"), and a
    summary counts the successes and spreads their scores over the high,
    medium and low bands. Listing and reading the files and the tool's
    answers are parameters. */
module ContextTests {
  import opened Values
  import opened Text
  import opened Numeric
  import opened VectorStore
  import opened Scoring
  import ManualSearch
  import AccuracyReports

  /** The best result's summary: score, source, model, brand and a
      200-character preview. */
  datatype TopSummary = TopSummary(score: real, source: Value, model: Value, brand: Value, preview: string)

  /** One file's entry: the test's result, or the error it raised. */
  datatype ContextResult =
    | Completed(contextFile: string, brand: string, model: string, applianceType: string, problem: string,
             query: string, numResults: nat, foundInformation: bool, filteredCount: nat,
             score: real, level: string, breakdown: Breakdown, topResult: Option<TopSummary>)
    | Errored(contextFile: string, error: string)

  /** What running one file gives: the context and the tool's answer, or
      the error raised while loading or searching. */
  datatype Outcome = Ran(ctx: AccuracyReports.UserContext, answer: ManualSearch.ToolAnswer) | Raised(error: string)

  datatype Summary = Summary(totalTests: nat, successfulTests: nat, failedTests: int,
                             averageAccuracy: real, maxAccuracy: real, minAccuracy: real,
                             highAccuracyCount: nat, mediumAccuracyCount: nat, lowAccuracyCount: nat)

  /** The score and level an entry reports; a failed entry reports 0 and
      "Error". */
  function EntryScore(r: ContextResult): real {
    if r.Completed? then r.score else 0.0
  }

  function EntryLevel(r: ContextResult): string {
    if r.Completed? then r.level else "Error"
  }

  /** The summary of the first result, if there is one. */
  function TopOf(results: seq<Hit>): (t: Option<TopSummary>)
    ensures t.Some? <==> results != []
    ensures t.Some? ==> t.value.score == results[0].score && t.value.preview == Take(results[0].text, 200)
  {
    if results == [] then None
    else
      var top := results[0];
      Some(TopSummary(top.score, MetaOr(top.metadata, "source"), MetaOr(top.metadata, "model_number"),
                      MetaOr(top.metadata, "brand"), Take(top.text, 200)))
  }

  /** `test_single_context`: the result for a context and the tool's
      answer to its query. */
  function TestSingleContext(contextFile: string, ctx: AccuracyReports.UserContext,
                             answer: ManualSearch.ToolAnswer): ContextResult
  {
    var score := answer.accuracy;
    Completed(LastSegment(contextFile, '/'), ctx.brand, ctx.model, ctx.applianceType, ctx.description,
           AccuracyReports.Query(ctx), answer.numResults, answer.foundInformation, answer.filteredCount,
           score.accuracy, score.level, score.breakdown, TopOf(answer.results))
  }

  /** The entry recorded for one file. */
  function ResultFor(contextFile: string, outcome: Outcome): ContextResult {
    match outcome
    case Ran(ctx, answer) => TestSingleContext(contextFile, ctx, answer)
    case Raised(error) => Errored(LastSegment(contextFile, '/'), error)
  }

  /** `test_all_contexts`: one entry per context file, in the order the
      files are listed. */
  method TestAllContexts(contextFiles: seq<string>, outcomes: seq<Outcome>) returns (results: seq<ContextResult>)
    requires |outcomes| == |contextFiles|
    ensures |results| == |contextFiles|
    ensures forall i :: 0 <= i < |contextFiles| ==> results[i] == ResultFor(contextFiles[i], outcomes[i])
  {
    results := [];
    for i := 0 to |contextFiles|
      invariant |results| == i
      invariant forall j :: 0 <= j < i ==> results[j] == ResultFor(contextFiles[j], outcomes[j])
    {
      match outcomes[i]
      case Ran(ctx, answer) =>
        results := results + [TestSingleContext(contextFiles[i], ctx, answer)];
      case Raised(error) =>
        results := results + [Errored(LastSegment(contextFiles[i], '/'), error)];
    }
  }

  /** The scores of the entries without an error, in order. */
  function Scores(results: seq<ContextResult>): (ss: seq<real>)
    ensures |ss| <= |results|
  {
    if results == [] then []
    else
      var n := |results| - 1;
      Scores(results[..n]) + (if results[n].Completed? then [results[n].score] else [])
  }

  /** How many scores fall in the high (at least 90), medium (75 up to
      90) and low (below 75) bands. */
  function Bands(scores: seq<real>): (nat, nat, nat) {
    if scores == [] then (0, 0, 0)
    else
      var n := |scores| - 1;
      var b := Bands(scores[..n]);
      var s := scores[n];
      (b.0 + (if s >= 90.0 then 1 else 0), b.1 + (if 75.0 <= s < 90.0 then 1 else 0), b.2 + (if s < 75.0 then 1 else 0))
  }

  /** Mean, maximum and minimum before rounding; all zero when there are
      no scores. */
  function Stats(scores: seq<real>): (real, real, real) {
    if scores == [] then (0.0, 0.0, 0.0) else (Sum(scores) / |scores| as real, Max(scores), Min(scores))
  }

  /** `generate_report`'s summary. */
  function GenerateReport(results: seq<ContextResult>): Summary {
    var scores := Scores(results);
    var st := Stats(scores);
    var b := Bands(scores);
    Summary(|results|, |scores|, |results| - |scores|, Round1(st.0), Round1(st.1), Round1(st.2), b.0, b.1, b.2)
  }

  // ---------------------------------------------------------------- properties

  /** A failed file is recorded with score 0 and level "Error"; a file
      that ran is recorded with the scorer's accuracy and level, and its
      top result is present exactly when the search found results. */
  lemma EntryFields(contextFile: string, outcome: Outcome)
    ensures var r := ResultFor(contextFile, outcome);
      r.contextFile == LastSegment(contextFile, '/')
      && (outcome.Raised? ==> EntryScore(r) == 0.0 && EntryLevel(r) == "Error" && r.error == outcome.error)
      && (outcome.Ran? ==> EntryScore(r) == outcome.answer.accuracy.accuracy
                           && EntryLevel(r) == outcome.answer.accuracy.level
                           && r.query == outcome.ctx.applianceType + " " + outcome.ctx.description
                           && (r.topResult.Some? <==> outcome.answer.results != []))
  {
  }

  /** The score list holds exactly the scores of the entries without an
      error. */
  lemma {:induction false} ScoresOfSuccesses(results: seq<ContextResult>, x: real)
    ensures x in Scores(results) <==> exists i :: 0 <= i < |results| && results[i].Completed? && results[i].score == x
  {
    if results != [] {
      var n := |results| - 1;
      ScoresOfSuccesses(results[..n], x);
      assert forall i :: 0 <= i < n ==> results[..n][i] == results[i];
    }
  }

  /** The three bands partition the scores. */
  lemma {:induction false} BandsPartition(scores: seq<real>)
    ensures Bands(scores).0 + Bands(scores).1 + Bands(scores).2 == |scores|
  {
    if scores != [] {
      BandsPartition(scores[..|scores| - 1]);
    }
  }

  /** The successful, failed and band counts add up: the bands partition
      the successful tests, and successful plus failed is the total. */
  lemma ReportCountsAddUp(results: seq<ContextResult>)
    ensures var s := GenerateReport(results);
      s.totalTests == |results| && s.successfulTests + s.failedTests == s.totalTests
      && 0 <= s.failedTests
      && s.highAccuracyCount + s.mediumAccuracyCount + s.lowAccuracyCount == s.successfulTests
  {
    BandsPartition(Scores(results));
  }

  /** The minimum, mean and maximum of the scores are in order, before
      and after rounding. */
  lemma StatsOrdered(scores: seq<real>)
    ensures Stats(scores).2 <= Stats(scores).0 <= Stats(scores).1
    ensures Round1(Stats(scores).2) <= Round1(Stats(scores).0) <= Round1(Stats(scores).1)
  {
    if scores != [] {
      MeanBetweenMinAndMax(scores);
    }
    var st := Stats(scores);
    Round1Monotone(st.2, st.0);
    Round1Monotone(st.0, st.1);
  }

  /** With no successful test every statistic is zero; otherwise the
      reported minimum, average and maximum are in order. */
  lemma ReportStatsOrdered(results: seq<ContextResult>)
    ensures var s := GenerateReport(results);
      (s.successfulTests == 0 ==> s.averageAccuracy == 0.0 && s.maxAccuracy == 0.0 && s.minAccuracy == 0.0
                                   && s.highAccuracyCount == 0 && s.mediumAccuracyCount == 0 && s.lowAccuracyCount == 0)
      && s.minAccuracy <= s.averageAccuracy <= s.maxAccuracy
  {
    StatsOrdered(Scores(results));
    if Scores(results) == [] {
      Round1Zero();
    }
  }
}
