/**
  * The strategic planner and the risk evaluator: a free-text objective is
  * split into at most eight numbered steps, and the request is scored
  * against two fixed term lists to decide whether explicit confirmation is
  * needed.
  */
module Planning {
  import opened Wrappers
  import opened Text

  /** Why a step is in the plan; `RationaleText` gives the sentence the planner records. */
  datatype Rationale = Initial | Final | Progress | NoSegments

  function RationaleText(r: Rationale): string
  {
    match r
    case Initial => "Establish initial execution direction."
    case Final => "Finalize and validate outcome."
    case Progress => "Required to progress toward the objective."
    case NoSegments => "No clear task segments detected."
  }

  datatype PlanStep = PlanStep(id: nat, task: string, rationale: Rationale)

  datatype ExecutionPlan = ExecutionPlan(objective: string, steps: seq<PlanStep>)

  datatype RiskLevel = Low | Medium | High

  /** The level as the source spells it. */
  function LevelName(level: RiskLevel): string
  {
    match level
    case Low => "low"
    case Medium => "medium"
    case High => "high"
  }

  datatype RiskAssessment = RiskAssessment(level: RiskLevel, score: nat, reasons: seq<string>, confirmationRequired: bool)

  // ---------------------------------------------------------------------------
  // Splitting an objective into chunks
  // ---------------------------------------------------------------------------

  /** The alternatives of the conjunction pattern, in the order the pattern tries them. */
  const Conjunctions: seq<string> := ["then", "and then", "after that", "next", "finally", "and"]

  /** A regular-expression word character (`\w`, ASCII letters, digits and `_`). */
  predicate IsWordChar(c: char)
  {
    ('a' <= c <= 'z') || ('A' <= c <= 'Z') || ('0' <= c <= '9') || c == '_'
  }

  /** Conjunction `c` matches at offset `p`, ignoring case, and a word boundary follows it. */
  predicate ConjunctionMatches(s: string, p: nat, c: string)
  {
    p + |c| <= |s| && Lower(s[p..p + |c|]) == c && (p + |c| == |s| || !IsWordChar(s[p + |c|]))
  }

  /** The length of the first alternative from index `k` on that matches at `p`. */
  function FirstConjunction(s: string, p: nat, k: nat): (m: Option<nat>)
    ensures m.Some? ==> 0 < m.value && p + m.value <= |s|
    decreases |Conjunctions| - k
  {
    if k >= |Conjunctions| then None
    else if ConjunctionMatches(s, p, Conjunctions[k]) then Some(|Conjunctions[k]|)
    else FirstConjunction(s, p, k + 1)
  }

  /**
    * The length of the conjunction the splitting pattern matches at offset
    * `p`: a word boundary must precede it (every alternative starts with a
    * letter), and the first alternative that fits wins.
    */
  function ConjunctionAt(s: string, p: nat): (m: Option<nat>)
    requires p <= |s|
    ensures m.Some? ==> 0 < m.value && p + m.value <= |s|
  {
    if p == 0 || !IsWordChar(s[p - 1]) then FirstConjunction(s, p, 0) else None
  }

  /** The chunks of `s` from `start` on, scanning for a match from `p` on. */
  function SplitFrom(s: string, start: nat, p: nat): (r: seq<string>)
    requires start <= p <= |s|
    ensures |r| >= 1
    decreases |s| - p
  {
    if p == |s| then [s[start..]]
    else match ConjunctionAt(s, p)
      case Some(n) => [s[start..p]] + SplitFrom(s, p + n, p + n)
      case None => SplitFrom(s, start, p + 1)
  }

  /** `re.split(r"\b(?:then|and then|after that|next|finally|and)\b", text, flags=re.IGNORECASE)`. */
  function SplitConjunctions(s: string): seq<string>
  {
    SplitFrom(s, 0, 0)
  }

  /** Text in which no conjunction matches is a single chunk. */
  lemma {:induction false} NoConjunctionOneChunk(s: string, start: nat, p: nat)
    requires start <= p <= |s|
    requires forall q :: p <= q < |s| ==> ConjunctionAt(s, q).None?
    ensures SplitFrom(s, start, p) == [s[start..]]
    decreases |s| - p
  {
    if p < |s| {
      NoConjunctionOneChunk(s, start, p + 1);
    }
  }

  /** A conjunction matching anywhere splits the text into at least two chunks. */
  lemma {:induction false} ConjunctionSplits(s: string, start: nat, p: nat, q: nat)
    requires start <= p <= q < |s|
    requires ConjunctionAt(s, q).Some?
    ensures |SplitFrom(s, start, p)| >= 2
    decreases |s| - p
  {
    if ConjunctionAt(s, p).None? {
      ConjunctionSplits(s, start, p + 1, q);
    }
  }

  /** `[c.strip(" ,") for c in chunks if c.strip(" ,")]`. */
  function CleanChunks(chunks: seq<string>): (r: seq<string>)
    ensures |r| <= |chunks|
    ensures forall i :: 0 <= i < |r| ==> r[i] != []
  {
    if chunks == [] then []
    else
      var c := StripChars(chunks[0], Chars({' ', ','}));
      (if c == [] then [] else [c]) + CleanChunks(chunks[1..])
  }

  /** `[x.strip() for x in parts if x.strip()]`. */
  function StripNonBlank(parts: seq<string>): (r: seq<string>)
    ensures |r| <= |parts|
    ensures forall i :: 0 <= i < |r| ==> r[i] != []
  {
    if parts == [] then []
    else
      var x := Strip(parts[0]);
      (if x == [] then [] else [x]) + StripNonBlank(parts[1..])
  }

  /** The upper bound on the number of chunks, and hence of plan steps. */
  const MaxSteps: nat := 8

  /**
    * `_split_steps`: split on conjunctions; if that leaves at most one chunk
    * and the text has a comma, split on commas instead; keep the first eight.
    */
  function SplitSteps(text: string): (r: seq<string>)
    ensures |r| <= MaxSteps
    ensures forall i :: 0 <= i < |r| ==> r[i] != []
  {
    var cleaned := CleanChunks(SplitConjunctions(text));
    var chosen := if |cleaned| <= 1 && ',' in text then StripNonBlank(SplitOn(text, ',')) else cleaned;
    if |chosen| <= MaxSteps then chosen else chosen[..MaxSteps]
  }

  /**
    * When the conjunctions leave at most one chunk and the text has a
    * comma, the chunks are the first eight non-blank pieces of the comma
    * split, stripped, none of them holding a comma.
    */
  lemma CommaFallback(text: string)
    requires |CleanChunks(SplitConjunctions(text))| <= 1 && ',' in text
    ensures var pieces := StripNonBlank(SplitOn(text, ','));
      var r := SplitSteps(text);
      |r| == (if |pieces| <= MaxSteps then |pieces| else MaxSteps) && r == pieces[..|r|]
      && forall i :: 0 <= i < |r| ==> ',' !in r[i]
  {
    SplitOnParts(text, ',');
    NoCommaStripped(SplitOn(text, ','));
  }

  /**
    * Otherwise the chunks are the first eight the conjunction split
    * leaves: commas inside them stay.
    */
  lemma ConjunctionChunksKept(text: string)
    requires |CleanChunks(SplitConjunctions(text))| >= 2 || ',' !in text
    ensures var cleaned := CleanChunks(SplitConjunctions(text));
      var r := SplitSteps(text);
      |r| == (if |cleaned| <= MaxSteps then |cleaned| else MaxSteps) && r == cleaned[..|r|]
  {
  }

  /** Stripping pieces that hold no comma gives pieces that hold none. */
  lemma {:induction false} NoCommaStripped(parts: seq<string>)
    requires forall p :: p in parts ==> ',' !in p
    ensures forall i :: 0 <= i < |StripNonBlank(parts)| ==> ',' !in StripNonBlank(parts)[i]
    decreases |parts|
  {
    if parts != [] {
      NoCommaStripped(parts[1..]);
      var a := StripIsInfix(parts[0], Spaces);
      var x := Strip(parts[0]);
      assert forall j :: 0 <= j < |x| ==> x[j] == parts[0][a + j];
      var r := StripNonBlank(parts);
      var rest := StripNonBlank(parts[1..]);
      assert r == (if x == [] then [] else [x]) + rest;
      assert parts[0] in parts;
      forall i | 0 <= i < |r| ensures ',' !in r[i] {
        if x != [] && i > 0 {
          assert r[i] == rest[i - 1];
        } else if x == [] {
          assert r[i] == rest[i];
        }
      }
    }
  }

  /** What a strip leaves is a slice of the text, starting at `a`. */
  lemma StripIsInfix(s: string, k: Strippable) returns (a: nat)
    ensures a + |StripChars(s, k)| <= |s| && StripChars(s, k) == s[a..a + |StripChars(s, k)|]
  {
    var t := TrimStart(s, k);
    TrimStartFacts(s, k);
    TrimEndFacts(t, k);
    a := |s| - |t|;
  }

  // ---------------------------------------------------------------------------
  // Building the plan
  // ---------------------------------------------------------------------------

  const DefaultObjective: string := "Handle request"

  /** `user_message.strip() or "Handle request"`. */
  function Objective(userMessage: string): string
  {
    var stripped := Strip(userMessage);
    if stripped == [] then DefaultObjective else stripped
  }

  /** `part.strip().strip(".")`. */
  function TaskOf(part: string): string
  {
    StripChars(Strip(part), Chars({'.'}))
  }

  /** The rationale a step gets from its 1-based position among `count` chunks. */
  function RationaleFor(idx: nat, count: nat): Rationale
  {
    if idx == 1 then Initial else if idx == count then Final else Progress
  }

  /** The task of every chunk, in chunk order. */
  function Tasks(parts: seq<string>): (tasks: seq<string>)
    ensures |tasks| == |parts|
  {
    seq(|parts|, k requires 0 <= k < |parts| => TaskOf(parts[k]))
  }

  /** The step the task at 0-based position `k` contributes: none when it is empty. */
  function StepAt(tasks: seq<string>, k: nat): seq<PlanStep>
    requires k < |tasks|
  {
    if tasks[k] == [] then [] else [PlanStep(k + 1, tasks[k], RationaleFor(k + 1, |tasks|))]
  }

  /**
    * The steps the first `n` tasks contribute, in order: ids are 1-based
    * task positions, strictly increasing, and every step's task is the
    * (non-empty) task at its position.
    */
  function StepsOf(tasks: seq<string>, n: nat): (r: seq<PlanStep>)
    requires n <= |tasks|
    ensures |r| <= n
    decreases n
  {
    if n == 0 then [] else StepsOf(tasks, n - 1) + StepAt(tasks, n - 1)
  }

  /**
    * `r` carries the 1-based positions of non-empty tasks among the first
    * `n`, strictly increasing, each with its task and the rationale its
    * position earns.
    */
  ghost predicate Numbered(tasks: seq<string>, n: nat, r: seq<PlanStep>)
  {
    && (forall i :: 0 <= i < |r| ==> 1 <= r[i].id <= n <= |tasks| && r[i].task != [] && r[i].task == tasks[r[i].id - 1])
    && (forall i :: 0 <= i < |r| ==> r[i].rationale == RationaleFor(r[i].id, |tasks|))
    && (forall i, j :: 0 <= i < j < |r| ==> r[i].id < r[j].id)
  }

  /** The steps of the first `n` tasks are numbered by task position. */
  lemma {:induction false} StepsOfShape(tasks: seq<string>, n: nat)
    requires n <= |tasks|
    ensures Numbered(tasks, n, StepsOf(tasks, n))
    decreases n
  {
    if n > 0 {
      StepsOfShape(tasks, n - 1);
      var prev := StepsOf(tasks, n - 1);
      if tasks[n - 1] == [] {
        assert StepsOf(tasks, n) == prev + [];
      } else {
        NumberedAppend(tasks, n, prev);
      }
    }
  }

  /** Appending the step of the non-empty task at position `n` keeps the numbering. */
  lemma NumberedAppend(tasks: seq<string>, n: nat, prev: seq<PlanStep>)
    requires 0 < n <= |tasks| && tasks[n - 1] != [] && Numbered(tasks, n - 1, prev)
    ensures Numbered(tasks, n, prev + [PlanStep(n, tasks[n - 1], RationaleFor(n, |tasks|))])
  {
    var last := PlanStep(n, tasks[n - 1], RationaleFor(n, |tasks|));
    var r := prev + [last];
    forall i | 0 <= i < |r|
      ensures 1 <= r[i].id <= n <= |tasks| && r[i].task != [] && r[i].task == tasks[r[i].id - 1]
      ensures r[i].rationale == RationaleFor(r[i].id, |tasks|)
    {
      if i < |prev| {
        assert r[i] == prev[i];
      }
    }
    forall i, j | 0 <= i < j < |r| ensures r[i].id < r[j].id {
      assert r[i] == prev[i];
      if j < |prev| {
        assert r[j] == prev[j];
      }
    }
  }

  const ClarifyStep: PlanStep := PlanStep(1, "Clarify intent", NoSegments)

  /** The plan `build_plan` returns for a message. */
  function Plan(userMessage: string): ExecutionPlan
  {
    var objective := Objective(userMessage);
    var tasks := Tasks(SplitSteps(objective));
    var steps := StepsOf(tasks, |tasks|);
    ExecutionPlan(objective, if steps == [] then [ClarifyStep] else steps)
  }

  /** `StrategicPlanner.build_plan`: split the objective, number its chunks, fall back to "Clarify intent". */
  method BuildPlan(userMessage: string) returns (plan: ExecutionPlan)
    ensures plan == Plan(userMessage)
  {
    var objective := Objective(userMessage);
    var parts := SplitSteps(objective);
    var steps := NumberSteps(parts);
    if steps == [] {
      steps := [ClarifyStep];
    }
    plan := ExecutionPlan(objective, steps);
  }

  /** The loop of `build_plan`: one pass over the chunks, appending a step per non-empty task. */
  method NumberSteps(parts: seq<string>) returns (steps: seq<PlanStep>)
    ensures steps == StepsOf(Tasks(parts), |parts|)
  {
    ghost var tasks := Tasks(parts);
    steps := [];
    var idx := 0;
    while idx < |parts|
      invariant 0 <= idx <= |parts| == |tasks|
      invariant steps == StepsOf(tasks, idx)
    {
      var task := TaskOf(parts[idx]);
      var rationale := Progress;
      if idx + 1 == 1 {
        rationale := Initial;
      } else if idx + 1 == |parts| {
        rationale := Final;
      }
      steps := AppendStep(steps, tasks, idx, task, rationale);
      idx := idx + 1;
    }
  }

  /** One more chunk appends its step, if its task is not empty, to the steps so far. */
  function AppendStep(steps: seq<PlanStep>, ghost tasks: seq<string>, n: nat, task: string, rationale: Rationale): (r: seq<PlanStep>)
    requires n < |tasks| && steps == StepsOf(tasks, n)
    requires task == tasks[n] && rationale == RationaleFor(n + 1, |tasks|)
    ensures r == StepsOf(tasks, n + 1)
  {
    if task == [] then steps else steps + [PlanStep(n + 1, task, rationale)]
  }

  /** A non-empty task yields a step carrying its position; `i` is where that step sits. */
  lemma {:induction false} StepsOfHas(tasks: seq<string>, n: nat, k: nat) returns (i: nat)
    requires k < n <= |tasks| && tasks[k] != []
    ensures i < |StepsOf(tasks, n)| && StepsOf(tasks, n)[i].id == k + 1
    decreases n
  {
    var prev := StepsOf(tasks, n - 1);
    var last := StepAt(tasks, n - 1);
    assert StepsOf(tasks, n) == prev + last;
    if k < n - 1 {
      i := StepsOfHas(tasks, n - 1, k);
      assert (prev + last)[i] == prev[i];
    } else {
      i := |prev|;
      assert (prev + last)[i] == last[0];
    }
  }

  /**
    * Every plan has between one and eight steps; their ids are the 1-based
    * positions of the chunks that kept a non-empty task, strictly
    * increasing (chunks that strip to nothing leave gaps).
    */
  lemma PlanShape(userMessage: string)
    ensures var plan := Plan(userMessage);
      1 <= |plan.steps| <= MaxSteps
    ensures var plan := Plan(userMessage);
      forall i, j :: 0 <= i < j < |plan.steps| ==> plan.steps[i].id < plan.steps[j].id
    ensures var plan := Plan(userMessage);
      forall i :: 0 <= i < |plan.steps| ==> 1 <= plan.steps[i].id <= MaxSteps && plan.steps[i].task != []
  {
    var tasks := Tasks(SplitSteps(Objective(userMessage)));
    var steps := StepsOf(tasks, |tasks|);
    StepsOfShape(tasks, |tasks|);
    assert Plan(userMessage).steps == if steps == [] then [ClarifyStep] else steps;
    if steps != [] {
      NumberedWithin(tasks, steps);
    }
  }

  /** Steps numbered by the positions of at most eight tasks have ids within 1..8. */
  lemma NumberedWithin(tasks: seq<string>, steps: seq<PlanStep>)
    requires |tasks| <= MaxSteps && Numbered(tasks, |tasks|, steps)
    ensures forall i :: 0 <= i < |steps| ==> 1 <= steps[i].id <= MaxSteps && steps[i].task != []
  {
  }

  /** No step is produced exactly when every task is empty. */
  lemma StepsOfEmptyIff(tasks: seq<string>)
    ensures StepsOf(tasks, |tasks|) == [] <==> forall k :: 0 <= k < |tasks| ==> tasks[k] == []
  {
    if StepsOf(tasks, |tasks|) == [] {
      forall k | 0 <= k < |tasks| ensures tasks[k] == [] {
        if tasks[k] != [] {
          var i := StepsOfHas(tasks, |tasks|, k);
        }
      }
    } else if forall k :: 0 <= k < |tasks| ==> tasks[k] == [] {
      StepsOfNone(tasks, |tasks|);
    }
  }

  /** Empty tasks contribute no steps. */
  lemma {:induction false} StepsOfNone(tasks: seq<string>, n: nat)
    requires n <= |tasks|
    requires forall k :: 0 <= k < n ==> tasks[k] == []
    ensures StepsOf(tasks, n) == []
    decreases n
  {
    if n > 0 {
      StepsOfNone(tasks, n - 1);
    }
  }

  /** The plan falls back to the single "Clarify intent" step exactly when no chunk keeps a task. */
  lemma PlanClarifyIff(userMessage: string)
    ensures var parts := SplitSteps(Objective(userMessage));
      Plan(userMessage).steps == [ClarifyStep] <==> forall k :: 0 <= k < |parts| ==> TaskOf(parts[k]) == []
  {
    var parts := SplitSteps(Objective(userMessage));
    var tasks := Tasks(parts);
    var steps := StepsOf(tasks, |tasks|);
    assert Plan(userMessage).steps == if steps == [] then [ClarifyStep] else steps;
    StepsOfEmptyIff(tasks);
    StepsOfShape(tasks, |tasks|);
    assert steps != [] ==> steps[0].rationale != NoSegments;
    TasksEmptyIff(parts);
  }

  /** Every task is empty exactly when every chunk strips to nothing. */
  lemma TasksEmptyIff(parts: seq<string>)
    ensures (forall k :: 0 <= k < |Tasks(parts)| ==> Tasks(parts)[k] == []) <==> (forall k :: 0 <= k < |parts| ==> TaskOf(parts[k]) == [])
  {
    var tasks := Tasks(parts);
    forall k | 0 <= k < |parts| ensures tasks[k] == TaskOf(parts[k]) {
    }
  }

  /**
    * A message whose conjunction split leaves two chunks, among the first
    * eight, that keep a non-empty task gets at least two steps, in the
    * order of their chunks.
    */
  lemma TwoTasksTwoSteps(userMessage: string, i: nat, j: nat)
    requires var cleaned := CleanChunks(SplitConjunctions(Objective(userMessage)));
      i < j < |cleaned| && j < MaxSteps && TaskOf(cleaned[i]) != [] && TaskOf(cleaned[j]) != []
    ensures |Plan(userMessage).steps| >= 2
    ensures exists a, b ::
      0 <= a < b < |Plan(userMessage).steps| && Plan(userMessage).steps[a].id == i + 1 && Plan(userMessage).steps[b].id == j + 1
  {
    var objective := Objective(userMessage);
    var cleaned := CleanChunks(SplitConjunctions(objective));
    ConjunctionChunksKept(objective);
    var parts := SplitSteps(objective);
    assert parts[i] == cleaned[i] && parts[j] == cleaned[j];
    var tasks := Tasks(parts);
    var a, b := TwoTasksStepsOf(tasks, i, j);
    assert Plan(userMessage).steps == StepsOf(tasks, |tasks|);
  }

  /** Two non-empty tasks give two steps, in task order. */
  lemma TwoTasksStepsOf(tasks: seq<string>, i: nat, j: nat) returns (a: nat, b: nat)
    requires i < j < |tasks| && tasks[i] != [] && tasks[j] != []
    ensures a < b < |StepsOf(tasks, |tasks|)|
    ensures StepsOf(tasks, |tasks|)[a].id == i + 1 && StepsOf(tasks, |tasks|)[b].id == j + 1
  {
    a := StepsOfHas(tasks, |tasks|, i);
    b := StepsOfHas(tasks, |tasks|, j);
    StepsOfShape(tasks, |tasks|);
  }

  /** The objective is the stripped message, or "Handle request" when the message is blank. */
  lemma PlanObjective(userMessage: string)
    ensures Plan(userMessage).objective != []
    ensures Strip(userMessage) != [] ==> Plan(userMessage).objective == Strip(userMessage)
    ensures Strip(userMessage) == [] ==> Plan(userMessage).objective == DefaultObjective
  {
  }

  // ---------------------------------------------------------------------------
  // Risk evaluation
  // ---------------------------------------------------------------------------

  /** The high-risk terms, in sorted order (the order the evaluator walks them). */
  const HighRiskTerms: seq<string> := [
    "api key", "bank", "credentials", "delete", "drop table", "erase", "format disk",
    "password", "payment", "reboot", "rm -rf", "shutdown", "transfer"
  ]

  /** The medium-risk terms, in sorted order. */
  const MediumRiskTerms: seq<string> := [
    "automation", "create key", "email", "execute", "install", "open site", "run command",
    "schedule", "send mail", "signup", "sudo"
  ]

  const ComplexityReason: string := "Multi-step request complexity"
  const ExplicitConfirmation: string := "Explicit user confirmation required"

  /** The reason recorded for a term hit, `kind` being "High" or "Medium". */
  function Indicator(kind: string, term: string): string
  {
    kind + "-risk indicator: '" + term + "'"
  }

  /** The terms that occur in `lower`, in list order: each term is tested once, on its own. */
  function Hits(lower: string, terms: seq<string>): (r: seq<string>)
    ensures |r| <= |terms|
    decreases |terms|
  {
    if terms == [] then []
    else
      var last := terms[|terms| - 1];
      Hits(lower, terms[..|terms| - 1]) + (if Contains(lower, last) then [last] else [])
  }

  /** A term is among the hits exactly when it is one of the terms and occurs in the text. */
  lemma {:induction false} HitsMembers(lower: string, terms: seq<string>)
    ensures forall t :: t in Hits(lower, terms) <==> t in terms && Contains(lower, t)
    decreases |terms|
  {
    if terms != [] {
      var init := terms[..|terms| - 1];
      HitsMembers(lower, init);
      assert terms == init + [terms[|terms| - 1]];
    }
  }

  /** One reason per hit, in hit order. */
  function Indicators(kind: string, hits: seq<string>): (r: seq<string>)
    ensures |r| == |hits|
    ensures forall i :: 0 <= i < |r| ==> r[i] == Indicator(kind, hits[i])
  {
    if hits == [] then [] else Indicators(kind, hits[..|hits| - 1]) + [Indicator(kind, hits[|hits| - 1])]
  }

  /** The score: three per high-risk hit, one per medium-risk hit, one for four or more steps. */
  function Score(userMessage: string, plan: ExecutionPlan): nat
  {
    var lower := Lower(userMessage);
    3 * |Hits(lower, HighRiskTerms)| + |Hits(lower, MediumRiskTerms)| + (if |plan.steps| >= 4 then 1 else 0)
  }

  /** The level: high on any high-risk hit or a score of four or more, medium from two, else low. */
  function LevelFor(highHit: bool, score: nat): RiskLevel
  {
    if highHit || score >= 4 then High else if score >= 2 then Medium else Low
  }

  /** The reasons before the confirmation reason is considered. */
  function BaseReasons(userMessage: string, plan: ExecutionPlan): seq<string>
  {
    var lower := Lower(userMessage);
    Indicators("High", Hits(lower, HighRiskTerms)) + Indicators("Medium", Hits(lower, MediumRiskTerms))
      + (if |plan.steps| >= 4 then [ComplexityReason] else [])
  }

  /** The assessment `RiskEvaluator.evaluate` returns. */
  function Assess(userMessage: string, plan: ExecutionPlan): RiskAssessment
  {
    var highHit := |Hits(Lower(userMessage), HighRiskTerms)| > 0;
    var score := Score(userMessage, plan);
    var level := LevelFor(highHit, score);
    var reasons := BaseReasons(userMessage, plan);
    var confirm := level == High;
    RiskAssessment(level, score,
      if confirm && ExplicitConfirmation !in reasons then reasons + [ExplicitConfirmation] else reasons,
      confirm)
  }

  /**
    * One pass of the evaluator over a term list: every term found in the
    * lower-cased text adds `weight` to the score and an indicator reason.
    */
  method AddIndicators(lower: string, terms: seq<string>, weight: nat, kind: string, score0: nat, reasons0: seq<string>)
    returns (score: nat, reasons: seq<string>, anyHit: bool)
    ensures score == score0 + weight * |Hits(lower, terms)|
    ensures reasons == reasons0 + Indicators(kind, Hits(lower, terms))
    ensures anyHit <==> |Hits(lower, terms)| > 0
  {
    score, reasons, anyHit := score0, reasons0, false;
    assert terms[..0] == [];
    assert reasons0 + Indicators(kind, []) == reasons0;
    for i := 0 to |terms|
      invariant (score, reasons, anyHit) == Tally(lower, terms[..i], weight, kind, score0, reasons0)
    {
      var term := terms[i];
      TallyStep(lower, terms, i, weight, kind, score0, reasons0);
      if Contains(lower, term) {
        score := score + weight;
        reasons := reasons + [Indicator(kind, term)];
        anyHit := true;
      }
    }
    assert terms[..|terms|] == terms;
  }

  /** What a pass over `terms` yields: the score, the reasons and whether any term hit. */
  function Tally(lower: string, terms: seq<string>, weight: nat, kind: string, score0: nat, reasons0: seq<string>)
    : (nat, seq<string>, bool)
  {
    var found := Hits(lower, terms);
    (score0 + weight * |found|, reasons0 + Indicators(kind, found), |found| > 0)
  }

  /** One more term adds its weight and its reason when it occurs, and leaves the tally alone otherwise. */
  lemma TallyStep(lower: string, terms: seq<string>, i: nat, weight: nat, kind: string, score0: nat, reasons0: seq<string>)
    requires i < |terms|
    ensures var t := Tally(lower, terms[..i], weight, kind, score0, reasons0);
      Contains(lower, terms[i]) ==>
        Tally(lower, terms[..i + 1], weight, kind, score0, reasons0) == (t.0 + weight, t.1 + [Indicator(kind, terms[i])], true)
    ensures !Contains(lower, terms[i]) ==>
      Tally(lower, terms[..i + 1], weight, kind, score0, reasons0) == Tally(lower, terms[..i], weight, kind, score0, reasons0)
  {
    var found := Hits(lower, terms[..i]);
    HitsStep(lower, terms, i);
    if Contains(lower, terms[i]) {
      var more := found + [terms[i]];
      IndicatorsAppend(kind, found, terms[i]);
      ScaleStep(weight, |found|);
      assert reasons0 + Indicators(kind, more) == reasons0 + Indicators(kind, found) + [Indicator(kind, terms[i])];
    } else {
      assert found + [] == found;
    }
  }

  /** Testing one more term appends it to the hits when it occurs. */
  lemma HitsStep(lower: string, terms: seq<string>, i: nat)
    requires i < |terms|
    ensures Hits(lower, terms[..i + 1]) == Hits(lower, terms[..i]) + (if Contains(lower, terms[i]) then [terms[i]] else [])
  {
    assert terms[..i + 1][..i] == terms[..i];
  }

  /** `w` more for one more hit. */
  lemma ScaleStep(w: nat, n: nat)
    ensures w * (n + 1) == w * n + w
  {
  }

  /** One more hit appends its reason. */
  lemma IndicatorsAppend(kind: string, hits: seq<string>, term: string)
    ensures Indicators(kind, hits + [term]) == Indicators(kind, hits) + [Indicator(kind, term)]
  {
    assert (hits + [term])[..|hits|] == hits;
  }

  /** `RiskEvaluator.evaluate`: a pass over each term list, the complexity point, then the level. */
  method Evaluate(userMessage: string, plan: ExecutionPlan) returns (risk: RiskAssessment)
    ensures risk == Assess(userMessage, plan)
  {
    var lower := Lower(userMessage);
    ghost var high, medium := Hits(lower, HighRiskTerms), Hits(lower, MediumRiskTerms);
    var score, reasons, highHit := AddIndicators(lower, HighRiskTerms, 3, "High", 0, []);
    assert reasons == Indicators("High", high);
    var mediumHit;
    score, reasons, mediumHit := AddIndicators(lower, MediumRiskTerms, 1, "Medium", score, reasons);
    assert reasons == Indicators("High", high) + Indicators("Medium", medium);
    if |plan.steps| >= 4 {
      score := score + 1;
      reasons := reasons + [ComplexityReason];
    }
    assert score == Score(userMessage, plan);
    assert reasons == BaseReasons(userMessage, plan);
    var level := if highHit || score >= 4 then High else if score >= 2 then Medium else Low;
    var confirmationRequired := level == High;
    if confirmationRequired && ExplicitConfirmation !in reasons {
      reasons := reasons + [ExplicitConfirmation];
    }
    risk := RiskAssessment(level, score, reasons, confirmationRequired);
  }

  /** Confirmation is required exactly when the level is high, i.e. on a high-risk hit or a score of four or more. */
  lemma ConfirmationIffHigh(userMessage: string, plan: ExecutionPlan)
    ensures var risk := Assess(userMessage, plan);
      risk.confirmationRequired <==> risk.level == High
    ensures var risk := Assess(userMessage, plan);
      risk.confirmationRequired <==>
        (exists t :: t in HighRiskTerms && Contains(Lower(userMessage), t)) || risk.score >= 4
    ensures var risk := Assess(userMessage, plan);
      risk.level == Medium <==> !risk.confirmationRequired && risk.score >= 2
  {
    var hits := Hits(Lower(userMessage), HighRiskTerms);
    HitsMembers(Lower(userMessage), HighRiskTerms);
    if hits != [] {
      assert hits[0] in hits;
    }
  }

  /** A message holding any high-risk term needs confirmation, whatever else it holds. */
  lemma {:induction false} HighTermForcesConfirmation(before: string, k: nat, after: string, plan: ExecutionPlan)
    requires k < |HighRiskTerms|
    ensures Assess(before + HighRiskTerms[k] + after, plan).confirmationRequired
    ensures Assess(before + HighRiskTerms[k] + after, plan).level == High
  {
    var t := HighRiskTerms[k];
    var msg := before + t + after;
    LowerConcat(before + t, after);
    LowerConcat(before, t);
    assert Lower(t) == t;
    assert OccursAt(Lower(msg), t, |before|) by {
      assert Lower(msg)[|before|..|before| + |t|] == t;
    }
    HitsMembers(Lower(msg), HighRiskTerms);
    assert t in Hits(Lower(msg), HighRiskTerms);
  }

  /** No term hit and fewer than four steps: the level is low and nothing needs confirming. */
  lemma QuietRequestIsLow(userMessage: string, plan: ExecutionPlan)
    requires forall k :: 0 <= k < |HighRiskTerms| ==> !Contains(Lower(userMessage), HighRiskTerms[k])
    requires forall k :: 0 <= k < |MediumRiskTerms| ==> !Contains(Lower(userMessage), MediumRiskTerms[k])
    requires |plan.steps| < 4
    ensures Assess(userMessage, plan).level == Low
    ensures !Assess(userMessage, plan).confirmationRequired
    ensures Assess(userMessage, plan).score == 0
  {
    NoHits(Lower(userMessage), HighRiskTerms);
    NoHits(Lower(userMessage), MediumRiskTerms);
  }

  /** No term occurs, so there are no hits. */
  lemma {:induction false} NoHits(lower: string, terms: seq<string>)
    requires forall k :: 0 <= k < |terms| ==> !Contains(lower, terms[k])
    ensures Hits(lower, terms) == []
    decreases |terms|
  {
    if terms != [] {
      NoHits(lower, terms[..|terms| - 1]);
    }
  }

  /** When confirmation is required, "Explicit user confirmation required" is the last reason, and only then does it appear. */
  lemma ExplicitReasonLast(userMessage: string, plan: ExecutionPlan)
    ensures var risk := Assess(userMessage, plan);
      risk.confirmationRequired ==> |risk.reasons| > 0 && risk.reasons[|risk.reasons| - 1] == ExplicitConfirmation
    ensures var risk := Assess(userMessage, plan);
      !risk.confirmationRequired ==> ExplicitConfirmation !in risk.reasons
  {
    var lower := Lower(userMessage);
    ReasonsNotExplicit(Hits(lower, HighRiskTerms), Hits(lower, MediumRiskTerms), |plan.steps| >= 4);
  }

  /** No indicator reason, nor the complexity reason, is the confirmation reason. */
  lemma ReasonsNotExplicit(high: seq<string>, medium: seq<string>, complex: bool)
    ensures ExplicitConfirmation !in
      Indicators("High", high) + Indicators("Medium", medium) + (if complex then [ComplexityReason] else [])
  {
    var reasons := Indicators("High", high) + Indicators("Medium", medium) + (if complex then [ComplexityReason] else []);
    forall i | 0 <= i < |reasons| ensures reasons[i] != ExplicitConfirmation {
      assert reasons[i][0] in {'H', 'M'};
    }
  }
}
