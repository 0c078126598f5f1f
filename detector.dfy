/** The wrong-appliance detector `_check_model_appliance_type` (tools.py):
    looks the user's model number up in the index and reports the appliance
    type of the first result whose model number matches.  Any exception,
    including the lookup itself failing, makes it answer `None`, so the
    scorer never blocks on it. */
module Detector {
  import opened Values
  import opened Text
  import opened Seqs
  import opened VectorStore
  import opened Retriever

  /** The lookup's outcome: it raised, or the server returned these points. */
  datatype Lookup = Raised | Returned(raw: seq<ScoredPoint>)

  /** A model number as both sides are cleaned: upper-cased, `"**"` then
      `"*"` removed, and whitespace stripped from the two ends only. */
  function Clean(s: string): string {
    Strip(RemoveAll(RemoveAll(Upper(s), "**"), "*"))
  }

  /** No `'*'` and no lower-case ASCII letter among the characters. */
  predicate Normalised(s: string) {
    forall i :: 0 <= i < |s| ==> s[i] != '*' && !('a' <= s[i] <= 'z')
  }

  /** A cleaned model number has no `'*'`, no lower-case ASCII letter and no
      whitespace at either end; inner whitespace survives. */
  lemma CleanShape(s: string)
    ensures Normalised(Clean(s))
    ensures Clean(s) == [] || (!IsSpace(Clean(s)[0]) && !IsSpace(Clean(s)[|Clean(s)| - 1]))
  {
    var u := Upper(s);
    var t := RemoveChar(u, '*');
    assert Clean(s) == Strip(t) by {
      RemoveStarsIsRemoveChar(u);
    }
    UpperHasNoLower(s);
    RemoveStarKeepsUpper(u);
    StripShape(t);
  }

  lemma UpperHasNoLower(s: string)
    ensures forall i :: 0 <= i < |Upper(s)| ==> !('a' <= Upper(s)[i] <= 'z')
  {
  }

  /** Stripping keeps a string normalised and leaves no whitespace at
      either end. */
  lemma StripShape(t: string)
    requires Normalised(t)
    ensures Normalised(Strip(t))
    ensures Strip(t) == [] || (!IsSpace(Strip(t)[0]) && !IsSpace(Strip(t)[|Strip(t)| - 1]))
  {
    var l := StripLeft(t);
    StripLeftShape(t);
    assert Normalised(l) by {
      assert forall i :: 0 <= i < |l| ==> l[i] == t[|t| - |l| + i];
    }
    var r := StripRight(l);
    StripRightShape(l);
    assert Normalised(r) by {
      assert forall i :: 0 <= i < |r| ==> r[i] == l[i];
    }
    StripLeftOfStripped(l);
  }

  /** Removing `'*'` from an upper-cased string leaves a normalised one. */
  lemma {:induction false} RemoveStarKeepsUpper(s: string)
    requires forall i :: 0 <= i < |s| ==> !('a' <= s[i] <= 'z')
    ensures Normalised(RemoveChar(s, '*'))
  {
    if s != [] {
      RemoveStarKeepsUpper(s[1..]);
    }
  }

  /** Right-stripping a string that starts with a non-space keeps that start. */
  lemma StripLeftOfStripped(l: string)
    requires l == [] || !IsSpace(l[0])
    ensures StripRight(l) == [] || !IsSpace(StripRight(l)[0])
  {
    var r := StripRight(l);
    StripRightShape(l);
    if r != [] {
      assert r[0] == l[0];
    }
  }

  /** Reading `model_number` with `.upper()` raises when it is not a string. */
  predicate ModelRaises(h: Hit) {
    "model_number" in h.metadata && h.metadata["model_number"].Int?
  }

  /** The lower-cased `appliance_type` of a hit (`""` when absent), or
      `None` when `.lower()` raises on a non-string. */
  function HitType(h: Hit): Option<string> {
    if "appliance_type" !in h.metadata then Some("")
    else match h.metadata["appliance_type"]
      case Str(t) => Some(Lower(t))
      case Int(_) => None
  }

  /** What one iteration of either pass reads from a result: whether
      reading its model number raises, the cleaned model number (`""` when
      absent), the score, and the type it would answer. */
  datatype Candidate = Candidate(raises: bool, model: string, score: real, kind: Option<string>)

  function CandidateOf(h: Hit): Candidate {
    Candidate(ModelRaises(h), if ModelRaises(h) then "" else Clean(GetStr(h.metadata, "model_number", "")),
              h.score, HitType(h))
  }

  function Candidates(hits: seq<Hit>): (cs: seq<Candidate>)
    ensures |cs| == |hits|
  {
    if hits == [] then [] else [CandidateOf(hits[0])] + Candidates(hits[1..])
  }

  lemma {:induction false} CandidateAt(hits: seq<Hit>, k: nat)
    requires k < |hits|
    ensures Candidates(hits)[k] == CandidateOf(hits[k])
  {
    if k > 0 {
      CandidateAt(hits[1..], k - 1);
    }
  }

  function MinLen(a: string, b: string): nat {
    if |a| < |b| then |a| else |b|
  }

  /** Where the first pass stops: reading the model raised, the cleaned
      models are equal, or the result scores above 0.5 and both models
      agree on the shorter one's length, which is at least 6. */
  predicate StopsFirstPass(u: string, c: Candidate) {
    var n := MinLen(u, c.model);
    c.raises || u == c.model || (c.score > 0.5 && |c.model| >= 6 && n >= 6 && u[..n] == c.model[..n])
  }

  /** Length of the common leading run of `a` and `b` within the first `n`
      characters, counting from position `i`. */
  function PrefixMatch(a: string, b: string, n: nat, i: nat := 0): (r: nat)
    requires i <= n <= |a| && n <= |b|
    ensures i <= r <= n
    ensures forall k :: i <= k < r ==> a[k] == b[k]
    ensures r < n ==> a[r] != b[r]
    decreases n - i
  {
    if i == n || a[i] != b[i] then i else PrefixMatch(a, b, n, i + 1)
  }

  /** Second pass: the result scores above 0.4, both models have at least 6
      characters, and the common leading run covers at least 80% of the
      shorter one (`matching * 5 >= n * 4` is `matching >= n * 0.8`). */
  predicate SecondAccepts(u: string, c: Candidate) {
    var n := MinLen(u, c.model);
    !c.raises && c.score > 0.4 && |c.model| >= 6 && n >= 6 && PrefixMatch(u, c.model, n) * 5 >= n * 4
  }

  /** The index where the first pass stops, if it does. */
  function FirstStop(u: string, cs: seq<Candidate>): (r: Option<nat>)
    ensures r.Some? ==> r.value < |cs| && StopsFirstPass(u, cs[r.value])
    ensures r.Some? ==> forall j :: 0 <= j < r.value ==> !StopsFirstPass(u, cs[j])
    ensures r.None? ==> forall j :: 0 <= j < |cs| ==> !StopsFirstPass(u, cs[j])
  {
    if cs == [] then None
    else if StopsFirstPass(u, cs[0]) then Some(0)
    else match FirstStop(u, cs[1..])
      case None => None
      case Some(k) => Some(k + 1)
  }

  /** The index of the first result the second pass accepts, if any. */
  function SecondMatch(u: string, cs: seq<Candidate>): (r: Option<nat>)
    ensures r.Some? ==> r.value < |cs| && SecondAccepts(u, cs[r.value])
    ensures r.Some? ==> forall j :: 0 <= j < r.value ==> !SecondAccepts(u, cs[j])
    ensures r.None? ==> forall j :: 0 <= j < |cs| ==> !SecondAccepts(u, cs[j])
  {
    if cs == [] then None
    else if SecondAccepts(u, cs[0]) then Some(0)
    else match SecondMatch(u, cs[1..])
      case None => None
      case Some(k) => Some(k + 1)
  }

  /** The answer of the two passes over cleaned candidates. */
  function Decide(u: string, cs: seq<Candidate>): Option<string> {
    match FirstStop(u, cs)
    case Some(k) => if cs[k].raises then None else cs[k].kind
    case None =>
      match SecondMatch(u, cs)
      case Some(k) => cs[k].kind
      case None => None
  }

  /** What the detector answers for the results the lookup returned. */
  function DetectIn(userModel: string, hits: seq<Hit>): Option<string> {
    if hits == [] then None else Decide(Clean(userModel), Candidates(hits))
  }

  /** A candidate whose cleaned model equals the user's, or shares with it
      a leading run covering at least 80% of the shorter model (at least 6
      characters). */
  predicate ModelMatches(u: string, c: Candidate) {
    var n := MinLen(u, c.model);
    !c.raises && (c.model == u || (n >= 6 && PrefixMatch(u, c.model, n) * 5 >= n * 4))
  }

  /** Counts the matching leading characters, stopping at the first
      mismatch. */
  method MatchingChars(a: string, b: string, n: nat) returns (matching: nat)
    requires n <= |a| && n <= |b|
    ensures matching == PrefixMatch(a, b, n)
  {
    matching := 0;
    var i := 0;
    while i < n
      invariant i <= n && matching == i
      invariant PrefixMatch(a, b, n, i) == PrefixMatch(a, b, n)
    {
      if a[i] == b[i] {
        matching := matching + 1;
      } else {
        break;
      }
      i := i + 1;
    }
  }

  /** `_check_model_appliance_type(user_model, user_brand)`: `retriever`
      stands for the default retriever and `lookup` for the outcome of its
      search (top 10, the user's brand as filter, no type filter). */
  method Detect(retriever: RAGRetriever, userModel: string, userBrand: Option<string>,
                queryEmbedding: seq<real>, lookup: Lookup)
    returns (request: Option<SearchRequest>, detected: Option<string>)
    requires lookup.Returned? ==> TextIsString(lookup.raw)
    ensures lookup.Raised? ==> request.None? && detected.None?
    ensures lookup.Returned? ==> request.Some? && request.value.limit == 10
    ensures lookup.Returned? ==> (request.value.filter.None? <==> !Truthy(userBrand))
    ensures lookup.Returned? && request.value.filter.Some? ==>
      ConditionsFor(WantedFilters(userBrand, None, None), request.value.filter.value.conditions)
    ensures lookup.Returned? ==>
      detected == DetectIn(userModel, Filter(Formatted(lookup.raw), AtLeast(0.0)))
  {
    if lookup.Raised? {
      return None, None;
    }
    var req, answer := SearchManualsRag(retriever, userModel, queryEmbedding, lookup.raw, 10, userBrand, None);
    request := Some(req);
    detected := ScanResults(userModel, answer.results);
  }

  /** The two passes over the results the lookup returned. */
  method ScanResults(userModel: string, hits: seq<Hit>) returns (detected: Option<string>)
    ensures detected == DetectIn(userModel, hits)
  {
    detected := None;
    if hits == [] {
      return;
    }
    var u := Clean(userModel);
    var stopped;
    stopped, detected := ScanFirstPass(u, hits);
    if !stopped {
      detected := ScanSecondPass(u, hits);
    }
  }

  /** The first pass: returns whether it stopped (on a match or on an
      exception) and, if so, the answer. */
  method ScanFirstPass(u: string, hits: seq<Hit>) returns (stopped: bool, detected: Option<string>)
    ensures stopped <==> FirstStop(u, Candidates(hits)).Some?
    ensures stopped ==> var c := Candidates(hits)[FirstStop(u, Candidates(hits)).value];
      detected == if c.raises then None else c.kind
  {
    ghost var cs := Candidates(hits);
    var i := 0;
    while i < |hits|
      invariant i <= |hits|
      invariant forall j :: 0 <= j < i ==> !StopsFirstPass(u, cs[j])
    {
      var h := hits[i];
      CandidateAt(hits, i);
      if ModelRaises(h) {
        return true, None;
      }
      var m := Clean(GetStr(h.metadata, "model_number", ""));
      if u == m {
        return true, HitType(h);
      }
      if h.score > 0.5 && |m| >= 6 {
        var n := MinLen(u, m);
        if n >= 6 {
          if u[..n] == m[..n] {
            return true, HitType(h);
          }
        }
      }
      i := i + 1;
    }
    return false, None;
  }

  /** The second pass: the type of the first result it accepts. */
  method ScanSecondPass(u: string, hits: seq<Hit>) returns (detected: Option<string>)
    ensures detected == match SecondMatch(u, Candidates(hits))
      case Some(k) => Candidates(hits)[k].kind
      case None => None
  {
    ghost var cs := Candidates(hits);
    var i := 0;
    while i < |hits|
      invariant i <= |hits|
      invariant forall j :: 0 <= j < i ==> !SecondAccepts(u, cs[j])
    {
      var h := hits[i];
      CandidateAt(hits, i);
      var m := if ModelRaises(h) then "" else Clean(GetStr(h.metadata, "model_number", ""));
      if !ModelRaises(h) && h.score > 0.4 && |m| >= 6 {
        var n := MinLen(u, m);
        if n >= 6 {
          var matching := MatchingChars(u, m, n);
          if matching * 5 >= n * 4 {
            return HitType(h);
          }
        }
      }
      i := i + 1;
    }
    return None;
  }

  /** A detected type is the lower-cased `appliance_type` of a returned
      result whose model matches the user's. */
  lemma DetectedTypeComesFromMatchingResult(userModel: string, hits: seq<Hit>, t: string)
    requires DetectIn(userModel, hits) == Some(t)
    ensures exists k :: 0 <= k < |hits| && ModelMatches(Clean(userModel), CandidateOf(hits[k])) && HitType(hits[k]) == Some(t)
  {
    var u := Clean(userModel);
    var cs := Candidates(hits);
    var first := FirstStop(u, cs);
    var k;
    if first.Some? {
      k := first.value;
      var m := cs[k].model;
      var n := MinLen(u, m);
      if m != u {
        assert forall j :: 0 <= j < n ==> u[j] == u[..n][j] == m[..n][j] == m[j];
      }
    } else {
      k := SecondMatch(u, cs).value;
    }
    assert ModelMatches(u, cs[k]);
    CandidateAt(hits, k);
  }

  /** A detected type never holds an upper-case ASCII letter. */
  lemma DetectedTypeIsLowerCase(userModel: string, hits: seq<Hit>, t: string)
    requires DetectIn(userModel, hits) == Some(t)
    ensures forall i :: 0 <= i < |t| ==> !('A' <= t[i] <= 'Z')
  {
    DetectedTypeComesFromMatchingResult(userModel, hits, t);
  }

  /** A first result whose cleaned model equals the user's decides the
      answer: its lower-cased type. */
  lemma ExactMatchAtFrontWins(userModel: string, hits: seq<Hit>)
    requires hits != [] && !ModelRaises(hits[0])
    requires Clean(GetStr(hits[0].metadata, "model_number", "")) == Clean(userModel)
    ensures DetectIn(userModel, hits) == HitType(hits[0])
  {
    CandidateAt(hits, 0);
  }

  /** The detector fails open: a result whose model number is not a string,
      met before any match, turns the whole answer into `None`. */
  lemma NonStringModelFailsOpen(userModel: string, hits: seq<Hit>)
    requires hits != [] && ModelRaises(hits[0])
    ensures DetectIn(userModel, hits) == None
  {
    CandidateAt(hits, 0);
  }

  /** Normalisation strips only the two ends: inner whitespace is kept, so
      "RS 28" and "RS28" are different models. */
  lemma CleanKeepsInnerSpace()
    ensures Clean(" rs 28* ") == "RS 28"
  {
    UpperExample();
    RemoveExample();
    StripExample();
  }

  lemma UpperExample()
    ensures Upper(" rs 28* ") == " RS 28* "
  {
  }

  lemma RemoveExample()
    ensures RemoveAll(RemoveAll(" RS 28* ", "**"), "*") == " RS 28 "
  {
    RemoveStarsIsRemoveChar(" RS 28* ");
    RemoveExampleTail();
    assert RemoveChar("S 28* ", '*') == "S 28 ";
    assert RemoveChar("RS 28* ", '*') == "RS 28 ";
  }

  lemma RemoveExampleTail()
    ensures RemoveChar(" 28* ", '*') == " 28 "
  {
    assert RemoveChar("* ", '*') == " ";
    assert RemoveChar("8* ", '*') == "8 ";
    assert RemoveChar("28* ", '*') == "28 ";
  }

  lemma StripExample()
    ensures Strip(" RS 28 ") == "RS 28"
  {
  }
}
