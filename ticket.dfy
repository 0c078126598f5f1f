/** The service ticket `create_service_ticket` (tools.py): unresolved
    issues are consolidated into one ticket holding every symptom, error
    code and attempted step, a combined summary and a priority. The clock,
    the random identifier and the outcome of writing the ticket file are
    parameters. */
module Ticket {
  import opened Values
  import opened Text
  import opened Seqs
  import Numeric

  /** One reported issue; absent lists read as empty, an absent summary
      as `None`. */
  datatype Issue = Issue(summary: Option<string>, symptoms: seq<string>, errorCodes: seq<string>,
                         attemptedSteps: seq<string>)

  /** The ticket; the source turns each gathered list into a set and back
      into a list, so their order is not defined and they are sets here. */
  datatype ServiceTicket = ServiceTicket(ticketId: string, status: string, createdAt: string,
                                         numberOfIssues: nat, combinedSummary: string, model: string,
                                         issues: seq<Issue>, allSymptoms: set<string>,
                                         allErrorCodes: set<string>, allAttemptedSteps: set<string>,
                                         priority: string)

  datatype TicketResult = TicketResult(success: bool, ticketId: string, message: string, details: ServiceTicket)

  /** `TCK-<year>-<first 8 hex digits, upper-cased>`. */
  function TicketId(year: nat, hex: string): (id: string)
    ensures StartsWith(id, "TCK-")
    ensures |id| == 4 + |Numeric.NatToString(year)| + 1 + |Take(hex, 8)|
  {
    "TCK-" + Numeric.NatToString(year) + "-" + Upper(Take(hex, 8))
  }

  /** The lists one field contributes, issue by issue. */
  function FieldLists(issues: seq<Issue>, field: Issue -> seq<string>): (ls: seq<seq<string>>)
    ensures |ls| == |issues|
    ensures forall k :: 0 <= k < |issues| ==> ls[k] == field(issues[k])
  {
    seq(|issues|, k requires 0 <= k < |issues| => field(issues[k]))
  }

  /** One field of every issue, concatenated in issue order. */
  function Gathered(issues: seq<Issue>, field: Issue -> seq<string>): seq<string> {
    Flatten(FieldLists(issues, field))
  }

  function Elements(s: seq<string>): (r: set<string>)
    ensures forall x :: x in r <==> x in s
  {
    set x | x in s
  }

  function SummaryOf(issue: Issue): string {
    if issue.summary.Some? then issue.summary.value else "Unknown issue"
  }

  function Summaries(issues: seq<Issue>): (ss: seq<string>)
    ensures |ss| == |issues|
    ensures forall k :: 0 <= k < |issues| ==> ss[k] == SummaryOf(issues[k])
  {
    seq(|issues|, k requires 0 <= k < |issues| => SummaryOf(issues[k]))
  }

  function CombinedSummary(issues: seq<Issue>): string {
    "Multiple issues reported: " + Join("; ", Summaries(issues))
  }

  /** The note appended to the message: where the file went, or why it
      could not be written. */
  function SavedMessage(ticketId: string, saveError: Option<string>): string {
    if saveError.None? then " Ticket saved to tickets/" + ticketId + ".json"
    else " (Note: Could not save to file: " + saveError.value + ")"
  }

  /** The ticket built from the gathered lists. */
  function TicketFrom(issues: seq<Issue>, model: Option<string>, ticketId: string, createdAt: string,
                      symptoms: seq<string>, errorCodes: seq<string>, steps: seq<string>): ServiceTicket
  {
    ServiceTicket(ticketId, "OPEN", createdAt, |issues|, CombinedSummary(issues),
                  if Truthy(model) then model.value else "Unknown", issues,
                  Elements(symptoms), Elements(errorCodes), Elements(steps),
                  if errorCodes != [] then "high" else "medium")
  }

  /** What `create_service_ticket` returns, for the clock's year and
      timestamp, the random hex digits and the file write's error, if any. */
  function TicketOf(issues: seq<Issue>, model: Option<string>, year: nat, hex: string, createdAt: string,
                    saveError: Option<string>): TicketResult
  {
    var id := TicketId(year, hex);
    var ticket := TicketFrom(issues, model, id, createdAt,
                             Gathered(issues, (i: Issue) => i.symptoms),
                             Gathered(issues, (i: Issue) => i.errorCodes),
                             Gathered(issues, (i: Issue) => i.attemptedSteps));
    TicketResult(true, id, "Service ticket " + id + " created successfully with "
                           + Numeric.NatToString(|issues|) + " issue(s)." + SavedMessage(id, saveError), ticket)
  }

  /** `create_service_ticket`: one pass over the issues extending the three
      lists, then the ticket. */
  method CreateServiceTicket(issues: seq<Issue>, model: Option<string>, year: nat, hex: string,
                             createdAt: string, saveError: Option<string>)
    returns (result: TicketResult)
    ensures result == TicketOf(issues, model, year, hex, createdAt, saveError)
  {
    var ticketId := TicketId(year, hex);
    var symptoms: seq<string> := [];
    var errorCodes: seq<string> := [];
    var steps: seq<string> := [];
    for i := 0 to |issues|
      invariant symptoms == Gathered(issues[..i], (x: Issue) => x.symptoms)
      invariant errorCodes == Gathered(issues[..i], (x: Issue) => x.errorCodes)
      invariant steps == Gathered(issues[..i], (x: Issue) => x.attemptedSteps)
    {
      GatheredSnoc(issues, i, (x: Issue) => x.symptoms);
      GatheredSnoc(issues, i, (x: Issue) => x.errorCodes);
      GatheredSnoc(issues, i, (x: Issue) => x.attemptedSteps);
      symptoms := symptoms + issues[i].symptoms;
      errorCodes := errorCodes + issues[i].errorCodes;
      steps := steps + issues[i].attemptedSteps;
    }
    assert issues[..|issues|] == issues;
    var ticket := TicketFrom(issues, model, ticketId, createdAt, symptoms, errorCodes, steps);
    var message := "Service ticket " + ticketId + " created successfully with "
                   + Numeric.NatToString(|issues|) + " issue(s)." + SavedMessage(ticketId, saveError);
    result := TicketResult(true, ticketId, message, ticket);
  }

  // ---------------------------------------------------------------- properties

  /** Extending by one more issue appends that issue's list. */
  lemma GatheredSnoc(issues: seq<Issue>, i: nat, field: Issue -> seq<string>)
    requires i < |issues|
    ensures Gathered(issues[..i + 1], field) == Gathered(issues[..i], field) + field(issues[i])
  {
    assert FieldLists(issues[..i + 1], field) == FieldLists(issues[..i], field) + [field(issues[i])];
    FlattenAppend(FieldLists(issues[..i], field), [field(issues[i])]);
    assert Flatten([field(issues[i])]) == field(issues[i]) + Flatten<string>([]);
  }

  /** A value is gathered exactly when some issue lists it. */
  lemma GatheredIffListed(issues: seq<Issue>, field: Issue -> seq<string>, x: string)
    ensures x in Gathered(issues, field) <==> exists k :: 0 <= k < |issues| && x in field(issues[k])
  {
    var ls := FieldLists(issues, field);
    InFlatten(ls, x);
    if x in Gathered(issues, field) {
      var k :| 0 <= k < |ls| && x in ls[k];
      assert x in field(issues[k]);
    }
  }

  /** The ticket's error codes are exactly those some issue reports (and
      likewise its symptoms and attempted steps). */
  lemma TicketGathersEveryIssue(issues: seq<Issue>, model: Option<string>, year: nat, hex: string,
                                createdAt: string, saveError: Option<string>, x: string)
    ensures var t := TicketOf(issues, model, year, hex, createdAt, saveError).details;
      (x in t.allErrorCodes <==> exists k :: 0 <= k < |issues| && x in issues[k].errorCodes)
      && (x in t.allSymptoms <==> exists k :: 0 <= k < |issues| && x in issues[k].symptoms)
      && (x in t.allAttemptedSteps <==> exists k :: 0 <= k < |issues| && x in issues[k].attemptedSteps)
  {
    GatheredIffListed(issues, (i: Issue) => i.errorCodes, x);
    GatheredIffListed(issues, (i: Issue) => i.symptoms, x);
    GatheredIffListed(issues, (i: Issue) => i.attemptedSteps, x);
  }

  /** The priority is "high" exactly when some issue reports an error code,
      "medium" otherwise. */
  lemma HighPriorityIffErrorCode(issues: seq<Issue>, model: Option<string>, year: nat, hex: string,
                                 createdAt: string, saveError: Option<string>)
    ensures var t := TicketOf(issues, model, year, hex, createdAt, saveError).details;
      (t.priority == "high" <==> exists k :: 0 <= k < |issues| && issues[k].errorCodes != [])
      && (t.priority == "high" || t.priority == "medium")
  {
    var codes := Gathered(issues, (i: Issue) => i.errorCodes);
    if codes != [] {
      GatheredIffListed(issues, (i: Issue) => i.errorCodes, codes[0]);
    } else if exists k :: 0 <= k < |issues| && issues[k].errorCodes != [] {
      var k :| 0 <= k < |issues| && issues[k].errorCodes != [];
      GatheredIffListed(issues, (i: Issue) => i.errorCodes, issues[k].errorCodes[0]);
    }
  }

  /** Creation always succeeds, even when the file cannot be written: the
      ticket is open, counts every issue, falls back to model "Unknown"
      and its message says where it was saved or why it was not. */
  lemma TicketAlwaysCreated(issues: seq<Issue>, model: Option<string>, year: nat, hex: string,
                            createdAt: string, saveError: Option<string>)
    ensures var r := TicketOf(issues, model, year, hex, createdAt, saveError);
      r.success && r.ticketId == r.details.ticketId && r.details.status == "OPEN"
      && r.details.numberOfIssues == |issues|
      && (r.details.model == "Unknown" <==> !Truthy(model) || model.value == "Unknown")
      && EndsWith(r.message, SavedMessage(r.ticketId, saveError))
  {
    var r := TicketOf(issues, model, year, hex, createdAt, saveError);
    var head := "Service ticket " + r.ticketId + " created successfully with "
                + Numeric.NatToString(|issues|) + " issue(s).";
    assert r.message == head + SavedMessage(r.ticketId, saveError);
    assert r.message[|head|..] == SavedMessage(r.ticketId, saveError);
  }

  /** Every issue's summary occurs in the combined summary. */
  lemma SummaryMentionsEveryIssue(issues: seq<Issue>, k: nat)
    requires k < |issues|
    ensures Contains(CombinedSummary(issues), SummaryOf(issues[k]))
  {
    var prefix := "Multiple issues reported: ";
    JoinContainsEach("; ", Summaries(issues), k);
    ContainsInSuffix(CombinedSummary(issues), |prefix|, SummaryOf(issues[k]));
    assert CombinedSummary(issues)[|prefix|..] == Join("; ", Summaries(issues));
  }
}
