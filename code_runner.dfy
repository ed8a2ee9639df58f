/**
  * The code runner's policy checks: a command is split into tokens, refused
  * when it is blank, empty after splitting, holds a blocked token, or starts
  * with a program outside the allow-list, and only then handed to the
  * process launcher, whose outcome is a parameter of the model.
  */
module CodeRunner {
  import opened Wrappers
  import opened Text
  import opened Values
  import opened ToolResults

  /** The allow-list, in the order `sorted` puts it. */
  const AllowedList: seq<string> := ["echo", "ls", "pip", "pwd", "pytest", "python", "python3", "rg", "uvicorn"]

  /** A program the runner may start. */
  predicate IsAllowed(p: string)
  {
    p == "python" || p == "python3" || p == "pytest" || p == "uvicorn" || p == "pip"
    || p == "rg" || p == "ls" || p == "pwd" || p == "echo"
  }

  /** A token that refuses the whole command wherever it appears. */
  predicate IsBlocked(t: string)
  {
    t == "rm" || t == "shutdown" || t == "reboot" || t == "mkfs" || t == "dd" || t == "sudo"
  }

  /** The number of characters of each output stream that the result keeps. */
  const OutputLimit: nat := 12000

  const CommandRequired: string := "command is required."
  const InvalidCommand: string := "Invalid command."
  const BlockedBySafety: string := "Command blocked by safety policy."
  const TimedOutMessage: string := "Command timed out."
  /** The two messages of the `ValueError` that `shlex.split` raises. */
  const UnclosedQuotation: string := "No closing quotation"
  const UnfinishedEscape: string := "No escaped character"

  /** `"Command prefix '<p>' is not allowed."` */
  function PrefixRefused(p: string): string
  {
    "Command prefix '" + p + "' is not allowed."
  }

  /**
    * What the process launcher reports for a token list and a timeout: the
    * process ran to completion, it outlived the timeout, or it could not be
    * started and raised an exception of the given kind (`OSError` for a
    * missing program, `PermissionError` for one that may not be executed).
    */
  datatype ProcessOutcome =
    | Finished(returncode: int, stdout: string, stderr: string)
    | TimedOut
    | LaunchFailed(kind: ErrorKind, message: string)

  /**
    * What `shlex.split` makes of a command: the tokens, or the message of
    * the `ValueError` it raises (an open quotation or a trailing escape).
    */
  datatype SplitOutcome = Tokens(parts: seq<string>) | SplitFailed(message: string)

  /** `shlex.split`. */
  type Splitter = string -> SplitOutcome

  /** The process launcher: the outcome of running a token list with a timeout. */
  type Launcher = (seq<string>, int) -> ProcessOutcome

  /** The checks' verdict: a finished result, or the tokens to start. */
  datatype Screening = Rejected(result: Result<ToolResult>) | Permitted(parts: seq<string>)

  /**
    * The checks that run before any process is started, in the order the
    * runner makes them; only a non-empty token list with no blocked token
    * and an allowed first program gets through.
    */
  function Screen(command: string, split: Splitter): (s: Screening)
    ensures s.Permitted? ==>
      s.parts != [] && IsAllowed(s.parts[0]) && forall i :: 0 <= i < |s.parts| ==> !IsBlocked(s.parts[i])
    ensures s.Rejected? && s.result.Err? ==> s.result.error.kind == ValueError
  {
    var c := Strip(command);
    if c == [] then Rejected(Ok(Fail(CommandRequired)))
    else match split(c)
      case SplitFailed(m) => Rejected(Err(Failure(ValueError, m)))
      case Tokens(parts) =>
        if parts == [] then Rejected(Ok(Fail(InvalidCommand)))
        else if exists i :: 0 <= i < |parts| && IsBlocked(parts[i]) then Rejected(Ok(Fail(BlockedBySafety)))
        else if !IsAllowed(parts[0]) then
          Rejected(Ok(ToolResult(false, Some(PrefixRefused(parts[0])), AllowedPrefixes(AllowedList))))
        else Permitted(parts)
  }

  /** Python's `s[-n:]` for `n > 0`: the last `n` characters, or all of `s`. */
  function Tail(s: string, n: nat): string
  {
    if |s| <= n then s else s[|s| - n..]
  }

  /** The result the runner builds from the launcher's outcome. */
  function Finish(outcome: ProcessOutcome): Result<ToolResult>
  {
    match outcome
    case TimedOut => Ok(Fail(TimedOutMessage))
    case LaunchFailed(k, m) => Err(Failure(k, m))
    case Finished(rc, out, err) =>
      Ok(ToolResult(rc == 0, None, Process(rc, Tail(out, OutputLimit), Tail(err, OutputLimit))))
  }

  /**
    * `CodeRunnerModule.run`. An `ok` result only ever comes from a process
    * the checks let through that ran to completion with return code 0.
    */
  function Run(command: string, timeoutSec: int, split: Splitter, launch: Launcher): (r: Result<ToolResult>)
    ensures r.Ok? && r.value.ok ==>
      Screen(command, split).Permitted?
      && launch(Screen(command, split).parts, timeoutSec).Finished?
      && launch(Screen(command, split).parts, timeoutSec).returncode == 0
  {
    match Screen(command, split)
    case Rejected(r) => r
    case Permitted(parts) => Finish(launch(parts, timeoutSec))
  }

  /**
    * A process is started exactly when the stripped command is non-blank,
    * splits into a non-empty token list with no blocked token, and its
    * first token is on the allow-list; the tokens started are the split.
    */
  lemma ScreenPermits(command: string, split: Splitter)
    ensures Screen(command, split).Permitted? <==>
      var c := Strip(command);
      c != [] && split(c).Tokens? && split(c).parts != []
      && (forall t :: t in split(c).parts ==> !IsBlocked(t))
      && IsAllowed(split(c).parts[0])
    ensures Screen(command, split).Permitted? ==> Screen(command, split).parts == split(Strip(command)).parts
  {
    var c := Strip(command);
    if c != [] && split(c).Tokens? {
      var parts := split(c).parts;
      assert (exists i :: 0 <= i < |parts| && IsBlocked(parts[i])) <==> (exists t :: t in parts && IsBlocked(t));
    }
  }

  /** A rejected command gives the same result whatever the launcher would have done. */
  lemma RejectionIgnoresLauncher(command: string, timeoutSec: int, split: Splitter, launch1: Launcher, launch2: Launcher)
    requires Screen(command, split).Rejected?
    ensures Run(command, timeoutSec, split, launch1) == Run(command, timeoutSec, split, launch2)
    ensures Run(command, timeoutSec, split, launch1) == Screen(command, split).result
  {
  }

  /** A blank command is refused before it is split. */
  lemma BlankRefused(command: string, split: Splitter, launch: Launcher, timeoutSec: int)
    requires forall i :: 0 <= i < |command| ==> IsSpace(command[i])
    ensures Run(command, timeoutSec, split, launch) == Ok(Fail(CommandRequired))
  {
    StripEmptyIff(command, Spaces);
  }

  /** A blocked token anywhere refuses the command, even when its first token is not allowed either. */
  lemma BlockedBeforePrefix(command: string, split: Splitter, launch: Launcher, timeoutSec: int, k: nat)
    requires Strip(command) != [] && split(Strip(command)).Tokens?
    requires k < |split(Strip(command)).parts| && IsBlocked(split(Strip(command)).parts[k])
    ensures Run(command, timeoutSec, split, launch) == Ok(Fail(BlockedBySafety))
  {
  }

  /**
    * Blocking is whole-token equality: `rmdir x` is not blocked by `rm`;
    * it is refused only because `rmdir` is not on the allow-list.
    */
  lemma RmdirNotBlocked(split: Splitter, launch: Launcher, timeoutSec: int)
    requires split("rmdir x") == Tokens(["rmdir", "x"])
    ensures !IsBlocked("rmdir")
    ensures Run("rmdir x", timeoutSec, split, launch)
      == Ok(ToolResult(false, Some(PrefixRefused("rmdir")), AllowedPrefixes(AllowedList)))
  {
    StripUnspaced("rmdir x");
    var parts := ["rmdir", "x"];
    assert forall i :: 0 <= i < |parts| ==> !IsBlocked(parts[i]);
  }

  /** The list a refused prefix carries holds exactly the allowed programs, each once. */
  lemma AllowedListExact()
    ensures forall p :: p in AllowedList <==> IsAllowed(p)
    ensures forall i, j :: 0 <= i < j < |AllowedList| ==> AllowedList[i] != AllowedList[j]
  {
  }

  /** The list is in the ascending order `sorted` leaves it in. */
  lemma AllowedListAscending()
    ensures forall i, j :: 0 <= i <= j < |AllowedList| ==> LexLe(AllowedList[i], AllowedList[j])
  {
    var l := AllowedList;
    assert LexLe(l[0], l[1]) && LexLe(l[1], l[2]) && LexLe(l[2], l[3]) && LexLe(l[3], l[4]);
    assert LexLe(l[4], l[5]) && LexLe(l[5], l[6]) && LexLe(l[6], l[7]) && LexLe(l[7], l[8]);
    ChainAscending(l);
  }

  /**
    * A command `shlex.split` cannot split raises its `ValueError` with
    * `shlex`'s own message, and no process is started.
    */
  lemma SplitFailureRaised(command: string, timeoutSec: int, split: Splitter, launch: Launcher)
    requires Strip(command) != [] && split(Strip(command)).SplitFailed?
    ensures Run(command, timeoutSec, split, launch) == Err(Failure(ValueError, split(Strip(command)).message))
  {
  }

  /**
    * A process that cannot be started raises its exception, kind and text
    * unchanged, out of `run`; only `TimeoutExpired` is answered by `run` itself.
    */
  lemma LaunchFailureRaised(command: string, timeoutSec: int, split: Splitter, launch: Launcher)
    requires Screen(command, split).Permitted?
    requires launch(Screen(command, split).parts, timeoutSec).LaunchFailed?
    ensures var o := launch(Screen(command, split).parts, timeoutSec);
      Run(command, timeoutSec, split, launch) == Err(Failure(o.kind, o.message))
  {
  }

  /** `s[-n:]` is the suffix of `s` of length `min(|s|, n)`. */
  lemma TailIsSuffix(s: string, n: nat)
    ensures |Tail(s, n)| == if |s| <= n then |s| else n
    ensures Tail(s, n) == s[|s| - |Tail(s, n)|..]
  {
  }

  /**
    * A finished process gives `ok` exactly when its return code is 0, and
    * each output stream keeps at most its last 12000 characters.
    */
  lemma FinishedResult(command: string, timeoutSec: int, split: Splitter, launch: Launcher)
    requires Screen(command, split).Permitted?
    requires launch(Screen(command, split).parts, timeoutSec).Finished?
    ensures var o := launch(Screen(command, split).parts, timeoutSec);
      var r := Run(command, timeoutSec, split, launch);
      r.Ok? && (r.value.ok <==> o.returncode == 0)
      && r.value.body.Process? && r.value.body.returncode == o.returncode
      && |r.value.body.stdout| <= OutputLimit && |r.value.body.stderr| <= OutputLimit
      && r.value.body.stdout == o.stdout[|o.stdout| - |r.value.body.stdout|..]
      && r.value.body.stderr == o.stderr[|o.stderr| - |r.value.body.stderr|..]
  {
    var o := launch(Screen(command, split).parts, timeoutSec);
    TailIsSuffix(o.stdout, OutputLimit);
    TailIsSuffix(o.stderr, OutputLimit);
  }
}
