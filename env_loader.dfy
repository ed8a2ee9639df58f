/**
  * Loading `.env` files into the process environment: each `KEY=value`
  * line sets the variable unless it is already set, so the first
  * definition wins, within a file and across `.env` then `.env.local`.
  */
module EnvLoader {
  import opened Wrappers
  import opened Text
  import opened Values

  /**
    * How reading a file turns out: missing or not a regular file, failing
    * with an `OSError`, not valid UTF-8 (the decoder's message), or its
    * lines as `splitlines` gives them.
    */
  datatype EnvFile = Absent | Unreadable | Undecodable(message: string) | Lines(lines: seq<string>)

  /** The environment after loading, and the exception that stopped loading, if any. */
  datatype Loaded = Loaded(env: map<string, string>, failure: Option<Failure>)

  const DoubleQuotes: Strippable := Chars({'"'})
  const SingleQuotes: Strippable := Chars({'\''})
  const NullByteError: Failure := Failure(ValueError, "embedded null byte")

  /** The value as written after `=`: stripped, then surrounding `"` removed, then surrounding `'`. */
  function Unquoted(value: string): string
  {
    StripChars(StripChars(Strip(value), DoubleQuotes), SingleQuotes)
  }

  /** The variable a line defines: none for a blank line, a comment, a line without `=`, or an empty key. */
  function ParseLine(raw: string): (r: Option<(string, string)>)
    ensures r.Some? ==> r.value.0 != [] && '=' !in r.value.0 && Strip(r.value.0) == r.value.0
  {
    var line := Strip(raw);
    if line == [] || StartsWith(line, "#") || '=' !in line then None
    else
      var i := IndexOfChar(line, '=');
      var key := Strip(line[..i]);
      KeyFacts(line, i);
      if key == [] then None else Some((key, Unquoted(line[i + 1..])))
  }

  /** The key, taken before the first `=` and stripped, holds no `=` and is stripped. */
  lemma KeyFacts(line: string, i: nat)
    requires i <= |line| && forall j :: 0 <= j < i ==> line[j] != '='
    ensures '=' !in Strip(line[..i]) && Strip(Strip(line[..i])) == Strip(line[..i])
  {
    var key := line[..i];
    TrimStartFacts(key, Spaces);
    TrimEndFacts(TrimStart(key, Spaces), Spaces);
    StripEnds(key, Spaces);
    var k := Strip(key);
    if k != [] {
      StripUnspaced(k);
    }
  }

  /** `os.environ.setdefault(key, value)`: an existing variable is kept; a new one cannot hold a NUL character. */
  function SetDefault(env: map<string, string>, key: string, value: string): Loaded
  {
    if key in env then Loaded(env, None)
    else if '\0' in key || '\0' in value then Loaded(env, Some(NullByteError))
    else Loaded(env[key := value], None)
  }

  /** The environment after the lines, in order, with loading stopped at the first exception. */
  function Applied(env: map<string, string>, lines: seq<string>): Loaded
  {
    if lines == [] then Loaded(env, None)
    else
      var before := Applied(env, lines[..|lines| - 1]);
      if before.failure.Some? then before else Step(before.env, ParseLine(lines[|lines| - 1]))
  }

  /** One line's effect: nothing when it defines nothing, else `setdefault` of what it defines. */
  function Step(env: map<string, string>, parsed: Option<(string, string)>): Loaded
  {
    match parsed
    case None => Loaded(env, None)
    case Some(kv) => SetDefault(env, kv.0, kv.1)
  }

  /** `_load_env_file`: a missing or unreadable file changes nothing; an undecodable one raises. */
  function FileLoaded(env: map<string, string>, file: EnvFile): Loaded
  {
    match file
    case Absent => Loaded(env, None)
    case Unreadable => Loaded(env, None)
    case Undecodable(message) => Loaded(env, Some(Failure(ValueError, message)))
    case Lines(lines) => Applied(env, lines)
  }

  /** `load_local_env_files`: `.env`, then `.env.local` unless loading the first raised. */
  function BothLoaded(env: map<string, string>, dotEnv: EnvFile, dotEnvLocal: EnvFile): Loaded
  {
    var first := FileLoaded(env, dotEnv);
    if first.failure.Some? then first else FileLoaded(first.env, dotEnvLocal)
  }

  /** The value the first line defining `key` gives it, if any line does. */
  function FirstDefinition(lines: seq<string>, key: string): Option<string>
  {
    if lines == [] then None
    else
      var earlier := FirstDefinition(lines[..|lines| - 1], key);
      if earlier.Some? then earlier
      else
        match ParseLine(lines[|lines| - 1])
        case Some(kv) => if kv.0 == key then Some(kv.1) else None
        case None => None
  }

  /** The process environment. */
  class Environment {
    var vars: map<string, string>

    constructor(vars: map<string, string>)
      ensures this.vars == vars
    {
      this.vars := vars;
    }

    /** `_load_env_file` over the file as read. */
    method LoadFile(file: EnvFile) returns (failure: Option<Failure>)
      modifies this
      ensures Loaded(vars, failure) == FileLoaded(old(vars), file)
    {
      failure := None;
      match file {
        case Absent =>
        case Unreadable =>
        case Undecodable(message) =>
          failure := Some(Failure(ValueError, message));
        case Lines(lines) =>
          failure := LoadLines(lines);
      }
    }

    /** The loop over the lines: each one parsed, and its variable set unless already set. */
    method LoadLines(lines: seq<string>) returns (failure: Option<Failure>)
      modifies this
      ensures Loaded(vars, failure) == Applied(old(vars), lines)
    {
      var i := 0;
      while i < |lines|
        invariant 0 <= i <= |lines|
        invariant Applied(old(vars), lines[..i]) == Loaded(vars, None)
      {
        var parsed := ParseLine(lines[i]);
        AppliedStep(old(vars), lines, i, parsed);
        if parsed.Some? {
          var key, value := parsed.value.0, parsed.value.1;
          if key !in vars {
            if '\0' in key || '\0' in value {
              StoppedStaysStopped(old(vars), lines, i + 1);
              return Some(NullByteError);
            }
            vars := vars[key := value];
          }
        }
        i := i + 1;
      }
      assert lines[..|lines|] == lines;
      return None;
    }

    /** `load_local_env_files`. */
    method LoadLocalFiles(dotEnv: EnvFile, dotEnvLocal: EnvFile) returns (failure: Option<Failure>)
      modifies this
      ensures Loaded(vars, failure) == BothLoaded(old(vars), dotEnv, dotEnvLocal)
    {
      failure := LoadFile(dotEnv);
      if failure.None? {
        failure := LoadFile(dotEnvLocal);
      }
    }
  }

  /** Loading one more line applies its step to the environment so far, unless loading has stopped. */
  lemma AppliedStep(env: map<string, string>, lines: seq<string>, i: nat, parsed: Option<(string, string)>)
    requires i < |lines| && parsed == ParseLine(lines[i])
    ensures var before := Applied(env, lines[..i]);
      Applied(env, lines[..i + 1]) == if before.failure.Some? then before else Step(before.env, parsed)
  {
    assert lines[..i + 1][..i] == lines[..i];
  }

  /** Once loading has stopped, later lines change nothing. */
  lemma {:induction false} StoppedStaysStopped(env: map<string, string>, lines: seq<string>, n: nat)
    requires n <= |lines| && Applied(env, lines[..n]).failure.Some?
    ensures Applied(env, lines) == Applied(env, lines[..n])
    decreases |lines| - n
  {
    if n < |lines| {
      AppliedStep(env, lines, n, ParseLine(lines[n]));
      StoppedStaysStopped(env, lines, n + 1);
    } else {
      assert lines[..n] == lines;
    }
  }

  /** A variable already set is never overwritten, and no variable is ever removed. */
  lemma {:induction false} ExistingKept(env: map<string, string>, lines: seq<string>)
    ensures forall k :: k in env ==> k in Applied(env, lines).env && Applied(env, lines).env[k] == env[k]
  {
    if lines != [] {
      ExistingKept(env, lines[..|lines| - 1]);
    }
  }

  /**
    * A variable not set before is set, after loading without error,
    * exactly when some line defines it, and to the value of the first
    * such line.
    */
  lemma {:induction false} FirstDefinitionWins(env: map<string, string>, lines: seq<string>, key: string)
    requires key !in env && Applied(env, lines).failure.None?
    ensures key in Applied(env, lines).env <==> FirstDefinition(lines, key).Some?
    ensures key in Applied(env, lines).env ==> Applied(env, lines).env[key] == FirstDefinition(lines, key).value
  {
    if lines != [] {
      var init := lines[..|lines| - 1];
      FirstDefinitionWins(env, init, key);
    }
  }

  /** Across the two files, a variable defined in `.env` takes that value, whatever `.env.local` says. */
  lemma DotEnvFirst(env: map<string, string>, lines: seq<string>, dotEnvLocal: EnvFile, key: string)
    requires key !in env && FirstDefinition(lines, key).Some?
    requires BothLoaded(env, Lines(lines), dotEnvLocal).failure.None?
    ensures key in BothLoaded(env, Lines(lines), dotEnvLocal).env
    ensures BothLoaded(env, Lines(lines), dotEnvLocal).env[key] == FirstDefinition(lines, key).value
  {
    FirstDefinitionWins(env, lines, key);
    ExistingKept(Applied(env, lines).env, match dotEnvLocal case Lines(ls) => ls case _ => []);
  }

  /** Blank lines, comments and lines without `=` define nothing. */
  lemma SkippedLines(raw: string)
    requires Strip(raw) == [] || StartsWith(Strip(raw), "#") || '=' !in Strip(raw)
    ensures ParseLine(raw) == None
  {
  }

  /**
    * A line `KEY=value` defines `KEY` as the unquoted value; the line is
    * split at its first `=` only, so the value may hold more of them.
    */
  lemma {:induction false} SplitAtFirstEquals(key: string, value: string)
    requires key != [] && Strip(key) == key && '=' !in key && key[0] != '#'
    requires value == [] || !IsSpace(value[|value| - 1])
    ensures ParseLine(key + "=" + value) == Some((key, Unquoted(value)))
  {
    var line := key + "=" + value;
    StripEnds(key, Spaces);
    assert line[0] == key[0];
    assert line[|line| - 1] == if value == [] then '=' else value[|value| - 1];
    StripUnspaced(line);
    assert line[|key|] == '=';
    assert IndexOfChar(line, '=') == |key|;
    assert line[..|key|] == key && line[|key| + 1..] == value;
  }
}
