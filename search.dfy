/** The agent's search tool `search_samsung_manuals_rag` (tools.py): asks
    the retriever for three times the wanted number of hits, keeps those
    above a similarity threshold (lowering it once when none qualify),
    rebuilds the context from what it keeps and attaches the accuracy
    score. */
module ManualSearch {
  import opened Values
  import opened Seqs
  import opened VectorStore
  import opened Retriever
  import opened Scoring

  /** The hits kept and `filtered_count`, the length of the last filtered
      list computed (the lowered one when the fallback ran). */
  datatype Selection = Selection(final: seq<Hit>, filteredCount: nat)

  datatype ToolAnswer = ToolAnswer(status: string, query: string, foundInformation: bool, context: string,
                                   results: seq<Hit>, source: string, numResults: nat,
                                   minSimilarityThreshold: real, filteredCount: nat,
                                   accuracy: AccuracyScore)

  /** The lowered threshold: 0.15 below the requested one, never below 0.5. */
  function FallbackThreshold(minSimilarity: real): (t: real)
    ensures t >= 0.5 && t >= minSimilarity - 0.15
    ensures t == 0.5 || t == minSimilarity - 0.15
  {
    if 0.5 >= minSimilarity - 0.15 then 0.5 else minSimilarity - 0.15
  }

  /** The selection: the first `topK` hits clearing the threshold; if none
      does, the first `topK` clearing the lowered threshold; if none does
      either, the first `topK` hits. */
  function Select(all: seq<Hit>, topK: nat, minSimilarity: real): (s: Selection)
    ensures |s.final| <= topK
    ensures forall i :: 0 <= i < |s.final| ==> s.final[i] in all
  {
    var filtered := Filter(all, AtLeast(minSimilarity));
    if filtered != [] then Selection(Prefix(filtered, topK), |filtered|)
    else
      var lowered := Filter(all, AtLeast(FallbackThreshold(minSimilarity)));
      if lowered != [] then Selection(Prefix(lowered, topK), |lowered|)
      else Selection(Prefix(all, topK), 0)
  }

  /** When some hit clears the requested threshold, every kept hit does,
      the kept hits are the first `topK` of those that do, and
      `filtered_count` counts all of those that do. */
  lemma ThresholdRespectedWhenMet(all: seq<Hit>, topK: nat, minSimilarity: real, k: nat)
    requires k < |all| && all[k].score >= minSimilarity
    ensures var s := Select(all, topK, minSimilarity);
      s.final == Prefix(Filter(all, AtLeast(minSimilarity)), topK)
      && s.filteredCount == |Filter(all, AtLeast(minSimilarity))|
      && forall i :: 0 <= i < |s.final| ==> s.final[i].score >= minSimilarity
  {
    var filtered := Filter(all, AtLeast(minSimilarity));
    assert AtLeast(minSimilarity)(all[k]);
    assert all[k] in filtered;
    var s := Select(all, topK, minSimilarity);
    forall i | 0 <= i < |s.final|
      ensures s.final[i].score >= minSimilarity
    {
      assert s.final[i] == filtered[i];
      assert AtLeast(minSimilarity)(filtered[i]);
    }
  }

  /** Hits exist and `topK` is positive: the selection is never empty. */
  lemma NeverEmptyWithHits(all: seq<Hit>, topK: nat, minSimilarity: real)
    requires all != [] && topK > 0
    ensures Select(all, topK, minSimilarity).final != []
  {
  }

  /** When no hit clears the requested threshold, the selection is the
      first `topK` hits clearing the lowered threshold, in order, and
      `filtered_count` is their number; when none clears that either, it
      is the first `topK` hits and the count is 0. */
  lemma FallbackSelection(all: seq<Hit>, topK: nat, minSimilarity: real)
    requires forall i :: 0 <= i < |all| ==> all[i].score < minSimilarity
    ensures var lowered := Filter(all, AtLeast(FallbackThreshold(minSimilarity)));
      var s := Select(all, topK, minSimilarity);
      s.final == (if lowered != [] then Prefix(lowered, topK) else Prefix(all, topK))
      && s.filteredCount == |lowered|
      && (lowered != [] ==> forall i :: 0 <= i < |s.final| ==> s.final[i].score >= FallbackThreshold(minSimilarity))
  {
    NoneClear(all, minSimilarity);
    var lowered := Filter(all, AtLeast(FallbackThreshold(minSimilarity)));
    var s := Select(all, topK, minSimilarity);
    if lowered != [] {
      forall i | 0 <= i < |s.final|
        ensures s.final[i].score >= FallbackThreshold(minSimilarity)
      {
        assert s.final[i] == lowered[i];
        assert AtLeast(FallbackThreshold(minSimilarity))(lowered[i]);
      }
    }
  }

  /** `filtered_count` is 0 exactly when no hit clears the requested
      threshold nor the lowered one; the answer may still hold hits then,
      taken from the unfiltered list. */
  lemma FilteredCountZeroIffNothingClears(all: seq<Hit>, topK: nat, minSimilarity: real)
    ensures Select(all, topK, minSimilarity).filteredCount == 0
      <==> (forall i :: 0 <= i < |all| ==> all[i].score < minSimilarity)
           && (forall i :: 0 <= i < |all| ==> all[i].score < FallbackThreshold(minSimilarity))
  {
    var fallback := FallbackThreshold(minSimilarity);
    if exists i :: 0 <= i < |all| && all[i].score >= minSimilarity {
      var i :| 0 <= i < |all| && all[i].score >= minSimilarity;
      assert AtLeast(minSimilarity)(all[i]);
      assert all[i] in Filter(all, AtLeast(minSimilarity));
    } else {
      NoneClear(all, minSimilarity);
      if exists i :: 0 <= i < |all| && all[i].score >= fallback {
        var i :| 0 <= i < |all| && all[i].score >= fallback;
        assert AtLeast(fallback)(all[i]);
        assert all[i] in Filter(all, AtLeast(fallback));
      } else {
        NoneClear(all, fallback);
      }
    }
  }

  /** No hit clears the threshold: filtering keeps nothing. */
  lemma {:induction false} NoneClear(all: seq<Hit>, threshold: real)
    requires forall i :: 0 <= i < |all| ==> all[i].score < threshold
    ensures Filter(all, AtLeast(threshold)) == []
  {
    if all != [] {
      NoneClear(all[1..], threshold);
    }
  }

  /** A requested threshold of 0.95 that no hit reaches falls back to 0.8:
      every kept hit then scores at least 0.8 when one does. */
  lemma FallbackFromNinetyFive(all: seq<Hit>, topK: nat, k: nat)
    requires forall i :: 0 <= i < |all| ==> all[i].score < 0.95
    requires k < |all| && all[k].score >= 0.8
    ensures FallbackThreshold(0.95) == 0.8
    ensures forall i :: 0 <= i < |Select(all, topK, 0.95).final| ==> Select(all, topK, 0.95).final[i].score >= 0.8
  {
    NoneClear(all, 0.95);
    var lowered := Filter(all, AtLeast(0.8));
    assert AtLeast(0.8)(all[k]);
    assert all[k] in lowered;
    var s := Select(all, topK, 0.95);
    assert s.final == Prefix(lowered, topK);
    forall i | 0 <= i < |s.final|
      ensures s.final[i].score >= 0.8
    {
      assert s.final[i] == lowered[i];
      assert AtLeast(0.8)(lowered[i]);
    }
  }

  /** `search_samsung_manuals_rag`: `raw` is what the server returns for
      the widened search and `detected` what the appliance-type detector
      answers for the user's model and brand. */
  method SearchSamsungManualsRag(retriever: RAGRetriever, query: string, queryEmbedding: seq<real>,
                                 raw: seq<ScoredPoint>, detected: Option<string>, topK: nat := 5,
                                 userModel: Option<string> := None, userBrand: Option<string> := None,
                                 applianceType: Option<string> := None, minSimilarity: real := 0.7)
    returns (request: SearchRequest, answer: ToolAnswer)
    requires TextIsString(raw)
    requires var final := Select(Filter(Formatted(raw), AtLeast(0.0)), topK, minSimilarity).final;
      StringValued(final, "model_number") && StringValued(final, "brand")
    ensures request.limit == 3 * topK
    ensures request.filter.None? <==> !Truthy(userBrand) && !Truthy(applianceType)
    ensures request.filter.Some? ==>
      ConditionsFor(WantedFilters(userBrand, applianceType, None), request.filter.value.conditions)
    ensures var all := Filter(Formatted(raw), AtLeast(0.0));
      var sel := Select(all, topK, minSimilarity);
      answer.results == sel.final && answer.filteredCount == sel.filteredCount
      && answer.context == (if sel.final != [] then ContextOf(sel.final) else ContextOf(all))
    ensures answer.numResults == |answer.results|
    ensures answer.foundInformation <==> answer.results != []
    ensures answer.minSimilarityThreshold == minSimilarity
    ensures answer.status == "success" && answer.query == query
    ensures StringValued(answer.results, "model_number") && StringValued(answer.results, "brand")
    ensures answer.accuracy == AccuracyOf(answer.results, userModel, userBrand, applianceType, detected)
  {
    var inner;
    request, inner := SearchManualsRag(retriever, query, queryEmbedding, raw, 3 * topK, userBrand, applianceType);
    var all := inner.results;
    var selection := Select(all, topK, minSimilarity);
    var final := selection.final;
    var context := inner.context;
    if final != [] {
      context := BuildContext(final);
    }
    var accuracy := CalculateAccuracyScore(final, userModel, userBrand, applianceType, detected);
    answer := ToolAnswer(inner.status, query, |final| > 0, context, final, inner.source, |final|,
                         minSimilarity, selection.filteredCount, accuracy);
  }
}
