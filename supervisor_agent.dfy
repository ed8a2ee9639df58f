/**
  * The supervisor agent: one line of text summarising a coordinator run,
  * either the fixed "paused" notice or a report of the plan size, the risk
  * level and the validation summary. The dicts it reads are modelled by
  * the entries it looks up, `None` standing for a missing key.
  */
module SupervisorAgent {
  import opened Wrappers
  import opened Text

  const PausedLead: string := "Objective '"
  const PausedTail: string := "' is high risk. Execution paused until confirmation token is provided."
  const ReportLead: string := "Objective analyzed. Plan has "
  const StepsWord: string := " steps. "
  const LevelLead: string := "Risk level: "
  const LevelEnd: string := ". "
  const UnknownLevel: string := "unknown"

  /**
    * `SupervisorAgent.summarize`: `stepCount` is `len(plan["steps"])` when
    * the key is present. A report, and only a report, opens with
    * "Objective analyzed. Plan has ", so a reader can tell it from the
    * paused notice.
    */
  function Summarize(objective: string, stepCount: Option<nat>, riskLevel: Option<string>,
                     validationSummary: Option<string>, confirmationRequired: bool): (r: string)
    ensures |r| >= |ReportLead| && (r[..|ReportLead|] == ReportLead <==> !confirmationRequired)
  {
    if confirmationRequired then
      var notice := PausedLead + objective + PausedTail;
      assert notice[10] == PausedLead[10] != ReportLead[10];
      notice
    else
      var steps := match stepCount case Some(n) => n case None => 0;
      var level := match riskLevel case Some(l) => l case None => UnknownLevel;
      var tail := match validationSummary case Some(s) => s case None => "";
      ReportLead + NatToString(steps) + StepsWord + (LevelLead + level + LevelEnd) + tail
  }

  /**
    * A paused summary names the objective between the fixed lead and tail,
    * and nothing about the plan, the risk or the validation changes it.
    */
  lemma PausedNamesObjective(objective: string, stepCount: Option<nat>, riskLevel: Option<string>,
                             validationSummary: Option<string>, stepCount': Option<nat>,
                             riskLevel': Option<string>, validationSummary': Option<string>)
    ensures var r := Summarize(objective, stepCount, riskLevel, validationSummary, true);
      r[..|PausedLead|] == PausedLead
      && r[|PausedLead|..|PausedLead| + |objective|] == objective
      && r[|PausedLead| + |objective|..] == PausedTail
      && r == Summarize(objective, stepCount', riskLevel', validationSummary', true)
  {
    var r := Summarize(objective, stepCount, riskLevel, validationSummary, true);
    assert r == PausedLead + objective + PausedTail;
  }

  /**
    * A report ends with the validation summary ("" when absent), right
    * after the risk level ("unknown" when absent), and starts by giving
    * the number of steps (0 when absent).
    */
  lemma ReportEndsWithValidation(objective: string, stepCount: Option<nat>, riskLevel: Option<string>,
                                 validationSummary: Option<string>)
    ensures var r := Summarize(objective, stepCount, riskLevel, validationSummary, false);
      var level := if riskLevel.Some? then riskLevel.value else UnknownLevel;
      var tail := if validationSummary.Some? then validationSummary.value else "";
      var steps := if stepCount.Some? then stepCount.value else 0;
      var mid := LevelLead + level + LevelEnd;
      |r| >= |ReportLead| + |mid| + |tail|
      && r[..|ReportLead|] == ReportLead
      && r[|ReportLead|..|ReportLead| + |NatToString(steps)|] == NatToString(steps)
      && r[|r| - |tail|..] == tail
      && r[|r| - |tail| - |mid|..|r| - |tail|] == mid
  {
    var level := if riskLevel.Some? then riskLevel.value else UnknownLevel;
    var tail := if validationSummary.Some? then validationSummary.value else "";
    var steps := if stepCount.Some? then stepCount.value else 0;
    var mid := LevelLead + level + LevelEnd;
    var digits := NatToString(steps);
    var r := Summarize(objective, stepCount, riskLevel, validationSummary, false);
    Pieces(ReportLead, digits, StepsWord, mid, tail);
  }

  /** Where each of five concatenated pieces sits. */
  lemma Pieces(a: string, b: string, c: string, d: string, e: string)
    ensures var r := a + b + c + d + e;
      |r| == |a| + |b| + |c| + |d| + |e|
      && r[..|a|] == a && r[|a|..|a| + |b|] == b
      && r[|r| - |e|..] == e && r[|r| - |e| - |d|..|r| - |e|] == d
  {
    var r := a + b + c + d + e;
    assert r == a + (b + (c + (d + e)));
    assert r == (a + b + c) + (d + e);
  }

  /** A missing key reads as its default: no steps, level "unknown", empty validation summary. */
  lemma MissingKeysDefault(objective: string)
    ensures Summarize(objective, None, None, None, false) == Summarize(objective, Some(0), Some(UnknownLevel), Some(""), false)
  {
  }

  /** Reports of plans with different step counts differ, so the count can be read back. */
  lemma ReportDistinguishesCounts(objective: string, m: nat, n: nat, riskLevel: Option<string>, validationSummary: Option<string>)
    requires m != n
    ensures Summarize(objective, Some(m), riskLevel, validationSummary, false) != Summarize(objective, Some(n), riskLevel, validationSummary, false)
  {
    var level := if riskLevel.Some? then riskLevel.value else UnknownLevel;
    var tail := if validationSummary.Some? then validationSummary.value else "";
    var rest := StepsWord + (LevelLead + level + LevelEnd) + tail;
    var dm, dn := NatToString(m), NatToString(n);
    Regroup(ReportLead, dm, StepsWord, LevelLead + level + LevelEnd, tail);
    Regroup(ReportLead, dn, StepsWord, LevelLead + level + LevelEnd, tail);
    if ReportLead + (dm + rest) == ReportLead + (dn + rest) {
      CommonPrefix(ReportLead, dm + rest, dn + rest);
      DigitsPrefixDetermined(dm, dn, rest);
      NatToStringInjective(m, n);
    }
  }

  lemma Regroup(a: string, b: string, c: string, d: string, e: string)
    ensures a + b + c + d + e == a + (b + (c + d + e))
  {
  }

  /** Two texts after the same text are equal when the whole texts are. */
  lemma CommonPrefix(p: string, x: string, y: string)
    requires p + x == p + y
    ensures x == y
  {
    assert x == (p + x)[|p|..];
  }

  /** Two texts followed by the same text are equal when the whole texts are. */
  lemma DigitsPrefixDetermined(x: string, y: string, rest: string)
    requires x + rest == y + rest
    ensures x == y
  {
    assert x == (x + rest)[..|x|];
  }
}
