/** The safety check `check_safety` (tools.py): a troubleshooting plan is
    matched, case-insensitively, against the keywords of a safety policy's
    blocked actions and required warnings, plus a fixed reminder to unplug
    the appliance. The policy, which the source loads from a YAML file when
    the module is imported, is a parameter here. */
module Safety {
  import opened Values
  import opened Text

  /** A blocked action: keywords, a message and a severity (absent keys
      read as no keywords, no message and no severity). */
  datatype BlockedRule = BlockedRule(keywords: seq<string>, message: Option<string>, severity: Option<string>)

  /** A required warning: the keywords of its condition, the warning text
      and a severity. */
  datatype WarningRule = WarningRule(keywords: seq<string>, warning: Option<string>, severity: Option<string>)

  datatype Policy = Policy(blockedActions: seq<BlockedRule>, requiredWarnings: seq<WarningRule>)

  /** The policy used when the policy file is missing. */
  const EmptyPolicy := Policy([], [])

  /** A reported warning or blocked action: its text (`None` when the
      rule has none) and its severity. */
  datatype Notice = Notice(text: Option<string>, severity: string)

  datatype SafetyReport = SafetyReport(safetyOk: bool, warnings: seq<Notice>, blockedActions: seq<Notice>,
                                       recommendation: string)

  const UnplugWarning := Notice(Some("\U{26A0}\U{FE0F} ALWAYS unplug the refrigerator before performing any maintenance."), "HIGH")
  const PowerWords: seq<string> := ["unplug", "power", "electrical"]

  /** Some keyword, lower-cased, occurs in the lower-cased plan. */
  predicate Fires(keywords: seq<string>, planLower: string) {
    exists k :: 0 <= k < |keywords| && Contains(planLower, Lower(keywords[k]))
  }

  function SeverityOr(severity: Option<string>, default: string): string {
    if severity.Some? then severity.value else default
  }

  /** The blocked actions reported for the rules, in policy order. */
  function BlockedNotices(rules: seq<BlockedRule>, planLower: string): (ns: seq<Notice>)
    ensures |ns| <= |rules|
  {
    if rules == [] then []
    else
      var last := rules[|rules| - 1];
      BlockedNotices(rules[..|rules| - 1], planLower)
        + (if Fires(last.keywords, planLower) then [BlockedNotice(last)] else [])
  }

  /** The policy warnings reported for the rules, in policy order. */
  function WarningNotices(rules: seq<WarningRule>, planLower: string): (ns: seq<Notice>)
    ensures |ns| <= |rules|
  {
    if rules == [] then []
    else
      var last := rules[|rules| - 1];
      WarningNotices(rules[..|rules| - 1], planLower)
        + (if Fires(last.keywords, planLower) then [Notice(last.warning, SeverityOr(last.severity, "MEDIUM"))] else [])
  }

  /** The plan mentions unplugging, power or electrics. */
  predicate MentionsPower(planLower: string) {
    exists w :: 0 <= w < |PowerWords| && Contains(planLower, PowerWords[w])
  }

  /** The report `check_safety` returns for `plan` under `policy`. */
  function SafetyOf(policy: Policy, plan: string): SafetyReport {
    var pl := Lower(plan);
    var blocked := BlockedNotices(policy.blockedActions, pl);
    var warnings := WarningNotices(policy.requiredWarnings, pl)
      + (if MentionsPower(pl) then [UnplugWarning] else []);
    SafetyReport(blocked == [], warnings, blocked,
                 if blocked == [] then "Proceed with caution" else "Professional service required")
  }

  /** `check_safety`: one pass over the blocked actions, one over the
      required warnings, then the unplug reminder. */
  method CheckSafety(policy: Policy, plan: string) returns (report: SafetyReport)
    ensures report == SafetyOf(policy, plan)
  {
    var planLower := Lower(plan);
    var blocked: seq<Notice> := [];
    var rules := policy.blockedActions;
    for i := 0 to |rules|
      invariant blocked == BlockedNotices(rules[..i], planLower)
    {
      assert rules[..i + 1][..i] == rules[..i];
      if exists k :: 0 <= k < |rules[i].keywords| && Contains(planLower, Lower(rules[i].keywords[k])) {
        blocked := blocked + [BlockedNotice(rules[i])];
      }
    }
    assert rules[..|rules|] == rules;
    var warnings := CollectWarnings(policy.requiredWarnings, planLower);
    if exists w :: 0 <= w < |PowerWords| && Contains(planLower, PowerWords[w]) {
      warnings := warnings + [UnplugWarning];
    }
    var safetyOk := |blocked| == 0;
    report := SafetyReport(safetyOk, warnings, blocked,
                           if safetyOk then "Proceed with caution" else "Professional service required");
  }

  /** The pass over the required warnings. */
  method CollectWarnings(rules: seq<WarningRule>, planLower: string) returns (warnings: seq<Notice>)
    ensures warnings == WarningNotices(rules, planLower)
  {
    warnings := [];
    for i := 0 to |rules|
      invariant warnings == WarningNotices(rules[..i], planLower)
    {
      assert rules[..i + 1][..i] == rules[..i];
      if exists k :: 0 <= k < |rules[i].keywords| && Contains(planLower, Lower(rules[i].keywords[k])) {
        warnings := warnings + [Notice(rules[i].warning, SeverityOr(rules[i].severity, "MEDIUM"))];
      }
    }
    assert rules[..|rules|] == rules;
  }

  // ---------------------------------------------------------------- properties

  /** No blocked action is reported exactly when no blocked rule's keyword
      occurs in the plan. */
  lemma {:induction false} NoBlockedIffNoneFires(rules: seq<BlockedRule>, planLower: string)
    ensures BlockedNotices(rules, planLower) == []
      <==> forall r :: 0 <= r < |rules| ==> !Fires(rules[r].keywords, planLower)
  {
    if rules != [] {
      var init := rules[..|rules| - 1];
      NoBlockedIffNoneFires(init, planLower);
      assert forall r :: 0 <= r < |init| ==> init[r] == rules[r];
    }
  }

  /** The plan is safe exactly when no blocked rule fires; the
      recommendation follows. */
  lemma SafeIffNothingBlocked(policy: Policy, plan: string)
    ensures SafetyOf(policy, plan).safetyOk
      <==> forall r :: 0 <= r < |policy.blockedActions| ==> !Fires(policy.blockedActions[r].keywords, Lower(plan))
    ensures SafetyOf(policy, plan).recommendation ==
      (if SafetyOf(policy, plan).safetyOk then "Proceed with caution" else "Professional service required")
  {
    NoBlockedIffNoneFires(policy.blockedActions, Lower(plan));
  }

  /** The blocked action reported for one rule. */
  function BlockedNotice(rule: BlockedRule): Notice {
    Notice(rule.message, SeverityOr(rule.severity, "HIGH"))
  }

  /** Every firing rule is reported, and every report comes from a firing
      rule. */
  lemma {:induction false} BlockedAreFiringRules(rules: seq<BlockedRule>, planLower: string)
    ensures forall r :: 0 <= r < |rules| && Fires(rules[r].keywords, planLower) ==>
      BlockedNotice(rules[r]) in BlockedNotices(rules, planLower)
    ensures forall n :: n in BlockedNotices(rules, planLower) ==>
      exists r :: 0 <= r < |rules| && Fires(rules[r].keywords, planLower) && n == BlockedNotice(rules[r])
  {
    if rules != [] {
      var last := |rules| - 1;
      var init := rules[..last];
      BlockedAreFiringRules(init, planLower);
      assert forall r :: 0 <= r < last ==> init[r] == rules[r];
    }
  }

  /** The check ignores case: an upper-cased plan gets the same report. */
  lemma CaseInsensitive(policy: Policy, plan: string)
    ensures SafetyOf(policy, Upper(plan)) == SafetyOf(policy, plan)
  {
    assert Lower(Upper(plan)) == Lower(plan);
  }

  /** The policy's warnings come first, in policy order; the unplug
      reminder follows exactly when the plan mentions unplugging, power or
      electrics. */
  lemma UnplugReminderLast(policy: Policy, plan: string)
    ensures var ws := SafetyOf(policy, plan).warnings;
      var own := WarningNotices(policy.requiredWarnings, Lower(plan));
      (MentionsPower(Lower(plan)) ==> ws == own + [UnplugWarning])
      && (!MentionsPower(Lower(plan)) ==> ws == own)
  {
  }

  /** Without a policy file nothing is ever blocked, and the only possible
      warning is the unplug reminder. */
  lemma EmptyPolicyNeverBlocks(plan: string)
    ensures SafetyOf(EmptyPolicy, plan).safetyOk
    ensures SafetyOf(EmptyPolicy, plan).warnings == (if MentionsPower(Lower(plan)) then [UnplugWarning] else [])
  {
  }
}
