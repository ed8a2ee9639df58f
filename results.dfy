/**
  * The result dictionary every tool call returns: `ok`, an optional
  * `message`, and the fields particular to the capability that answered.
  */
module ToolResults {
  import opened Wrappers
  import opened Values
  import opened Scheduler

  /** One `list_dir` entry; `size` is the byte size of a file and absent for a directory. */
  datatype DirEntry = DirEntry(name: string, isDir: bool, size: Option<nat>)

  /** The capability-specific fields of a result. */
  datatype Body =
    | Plain                                                            // only `ok` and `message`
    | Elevated                                                         // `risk: "elevated"`
    | AllowedPrefixes(allowed: seq<string>)                            // the rejected command's allow-list
    | Listing(path: string, entries: seq<DirEntry>)
    | FileText(path: string, content: string, truncated: bool)
    | AtPath(path: string)
    | Process(returncode: int, stdout: string, stderr: string)
    | QueuedCount(count: nat)
    | QueueItems(items: seq<Value>)
    | JobCreated(id: nat)                                              // `job: {id, status: "pending"}`
    | JobList(jobs: seq<Job>)
    | DueRun(processed: nat, ran: seq<JobOutcome>, failed: seq<JobOutcome>)
    | Fields(fields: Entries)                                          // what an external capability adds

  datatype ToolResult = ToolResult(ok: bool, message: Option<string>, body: Body)

  /** One `{id, result}` record of `run_due_jobs`. */
  datatype JobOutcome = JobOutcome(id: nat, result: ToolResult)

  /** `{"ok": False, "message": m}`. */
  function Fail(m: string): ToolResult
  {
    ToolResult(false, Some(m), Plain)
  }

  /** `{"ok": True}` plus the fields of `body`. */
  function Success(body: Body): ToolResult
  {
    ToolResult(true, None, body)
  }
}
