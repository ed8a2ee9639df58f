/**
  * The validation agent: it counts the executed calls that succeeded and
  * failed, collects the failure messages, and reports `ok` only when
  * nothing failed. Without auto-execution it reports a fixed dry-run
  * verdict.
  */
module ValidationAgent {
  import opened Wrappers
  import opened Text
  import opened ToolResults
  import opened ExecutionAgent

  /** The dict `run` returns; `errors` is absent in dry-run mode. */
  datatype Validation = Validation(ok: bool, summary: string, successCount: nat, failureCount: nat, errors: Option<seq<string>>)

  const DryRunSummary: string := "Dry-run mode. No tool actions executed."
  const UnknownFailure: string := "Unknown failure"

  /** The dry-run verdict. */
  const DryRun: Validation := Validation(true, DryRunSummary, 0, 0, None)

  /** `result.get("message", "Unknown failure")`. */
  function ErrorOf(r: ToolResult): string
  {
    match r.message
    case Some(m) => m
    case None => UnknownFailure
  }

  /** The number of records whose call succeeded. */
  function Successes(records: seq<StepRecord>): nat
  {
    if records == [] then 0
    else Successes(records[..|records| - 1]) + (if records[|records| - 1].result.ok then 1 else 0)
  }

  /** The number of records whose call failed. */
  function Failures(records: seq<StepRecord>): nat
  {
    if records == [] then 0
    else Failures(records[..|records| - 1]) + (if records[|records| - 1].result.ok then 0 else 1)
  }

  /** The records whose call failed, in order. */
  function FailedRecords(records: seq<StepRecord>): seq<StepRecord>
  {
    if records == [] then []
    else FailedRecords(records[..|records| - 1]) + (if records[|records| - 1].result.ok then [] else [records[|records| - 1]])
  }

  /** The error list: one message per failed record, in order. */
  function Errors(records: seq<StepRecord>): seq<string>
  {
    if records == [] then []
    else Errors(records[..|records| - 1]) + (if records[|records| - 1].result.ok then [] else [ErrorOf(records[|records| - 1].result)])
  }

  /** `"Executed N actions: S succeeded, F failed."` */
  function CountSummary(total: nat, success: nat, failure: nat): string
  {
    "Executed " + NatToString(total) + " actions: " + NatToString(success) + " succeeded, " + NatToString(failure) + " failed."
  }

  /** What `run` returns. */
  function Validated(records: seq<StepRecord>, autoExecute: bool): Validation
  {
    if !autoExecute then DryRun
    else
      var s := Successes(records);
      var f := Failures(records);
      Validation(f == 0, CountSummary(s + f, s, f), s, f, Some(Errors(records)))
  }

  /** `ValidationAgent.run`. */
  method Run(records: seq<StepRecord>, autoExecute: bool) returns (v: Validation)
    ensures v == Validated(records, autoExecute)
  {
    if !autoExecute {
      return DryRun;
    }
    var success := 0;
    var failure := 0;
    var errors := [];
    for i := 0 to |records|
      invariant success == Successes(records[..i])
      invariant failure == Failures(records[..i])
      invariant errors == Errors(records[..i])
    {
      assert records[..i + 1][..i] == records[..i];
      var result := records[i].result;
      if result.ok {
        success := success + 1;
      } else {
        failure := failure + 1;
        errors := errors + [ErrorOf(result)];
      }
    }
    assert records[..|records|] == records;
    var summary := CountSummary(success + failure, success, failure);
    v := Validation(failure == 0, summary, success, failure, Some(errors));
  }

  /** In dry-run mode the verdict is fixed, whatever the records. */
  lemma DryRunIgnoresRecords(records: seq<StepRecord>)
    ensures var v := Validated(records, false);
      v.ok && v.successCount == 0 && v.failureCount == 0 && v.summary == DryRunSummary && v.errors.None?
  {
  }

  /** Every record is counted once: successes plus failures is the number of records. */
  lemma {:induction false} CountsPartition(records: seq<StepRecord>)
    ensures Successes(records) + Failures(records) == |records|
  {
    if records != [] {
      CountsPartition(records[..|records| - 1]);
    }
  }

  /** The failures counted are exactly the failed records, which are the ones with `ok` false. */
  lemma {:induction false} FailedRecordsExact(records: seq<StepRecord>)
    ensures Failures(records) == |FailedRecords(records)|
    ensures forall k :: 0 <= k < |FailedRecords(records)| ==> !FailedRecords(records)[k].result.ok
    ensures forall r :: r in records && !r.result.ok ==> r in FailedRecords(records)
    ensures forall r :: r in FailedRecords(records) ==> r in records
  {
    if records != [] {
      var init := records[..|records| - 1];
      FailedRecordsExact(init);
      assert records == init + [records[|records| - 1]];
    }
  }

  /** The errors are the messages of the failed records, in order, "Unknown failure" where none was given. */
  lemma {:induction false} ErrorsFollowFailures(records: seq<StepRecord>)
    ensures |Errors(records)| == |FailedRecords(records)|
    ensures forall k :: 0 <= k < |Errors(records)| ==> Errors(records)[k] == ErrorOf(FailedRecords(records)[k].result)
  {
    if records != [] {
      ErrorsFollowFailures(records[..|records| - 1]);
    }
  }

  /** With auto-execution, `ok` holds exactly when every call succeeded. */
  lemma OkIffAllSucceeded(records: seq<StepRecord>)
    ensures Validated(records, true).ok <==> forall k :: 0 <= k < |records| ==> records[k].result.ok
  {
    FailedRecordsExact(records);
    if FailedRecords(records) != [] {
      var r := FailedRecords(records)[0];
      assert r in FailedRecords(records);
      var k :| 0 <= k < |records| && records[k] == r;
      assert !records[k].result.ok;
    } else {
      forall k | 0 <= k < |records| ensures records[k].result.ok {
        assert records[k] in records;
      }
    }
  }

  /** The summary reports the number of records, then the two counts. */
  lemma SummaryCounts(records: seq<StepRecord>)
    ensures Validated(records, true).summary == CountSummary(|records|, Successes(records), Failures(records))
  {
    CountsPartition(records);
  }
}
