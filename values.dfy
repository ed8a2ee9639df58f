/**
  * The dynamically typed values a tool call receives as parameters (the
  * JSON-shaped `dict` of the request), Python's coercions on them
  * (`str()`, `repr()`, `bool()`, `int()`, `dict()`), the JSON round trip
  * the persistent stores apply, and the exceptions a capability raises.
  */
module Values {
  import opened Wrappers
  import opened Text

  /** A Python value as it appears in a request: `None`, `bool`, `int`, `str`, `list` or `dict` (entries in insertion order). */
  datatype Value = Null | Bool(b: bool) | Int(i: int) | Str(s: string) | List(items: seq<Value>) | Dict(entries: seq<(Value, Value)>)

  type Entries = seq<(Value, Value)>

  /** The exception classes the core distinguishes. */
  datatype ErrorKind = PermissionError | OSError | ValueError | TypeError | AttributeError | RecursionError

  /** A raised exception: its class and `str(exc)`. */
  datatype Failure = Failure(kind: ErrorKind, message: string)

  datatype Result<T> = Ok(value: T) | Err(error: Failure)

  /** `d.get(key, default)` for a string key; the first entry with that key wins. */
  function Get(d: Entries, key: string, default: Value): (r: Value)
    ensures (exists i :: 0 <= i < |d| && d[i].0 == Str(key)) || r == default
    ensures r != default ==> exists i :: 0 <= i < |d| && d[i] == (Str(key), r)
  {
    if d == [] then default
    else if d[0].0 == Str(key) then d[0].1
    else Get(d[1..], key, default)
  }

  /** Python's `str(i)` for an integer. */
  function IntToString(i: int): (r: string)
    ensures |r| >= 1
  {
    if i < 0 then "-" + NatToString(-i) else NatToString(i)
  }

  const HexDigits: string := "0123456789abcdef"

  /** One character as it appears inside a quoted `repr` using quote `q`. */
  function EscapeChar(c: char, q: char): string
  {
    if c == '\\' then "\\\\"
    else if c == q then ['\\', q]
    else if c == '\t' then "\\t"
    else if c == '\n' then "\\n"
    else if c == '\r' then "\\r"
    else if c < ' ' || c == '\U{7F}' then "\\x" + [HexDigits[c as int / 16], HexDigits[c as int % 16]]
    else [c]
  }

  function Escape(s: string, q: char): string
  {
    if s == [] then [] else EscapeChar(s[0], q) + Escape(s[1..], q)
  }

  /** The quote Python's `repr` picks: double quotes only when the text has a single quote and no double quote. */
  function QuoteFor(s: string): char
  {
    if '\'' in s && '"' !in s then '"' else '\''
  }

  /** Python's `repr(s)` for a string, escaping control characters below 128; other characters are copied. */
  function StrRepr(s: string): (r: string)
    ensures |r| >= 2 && r[0] == r[|r| - 1] == QuoteFor(s)
  {
    [QuoteFor(s)] + Escape(s, QuoteFor(s)) + [QuoteFor(s)]
  }

  /** `str(v)` for the values that are not containers. */
  function ScalarStr(v: Value): string
    requires !v.List? && !v.Dict?
  {
    match v
    case Null => "None"
    case Bool(b) => if b then "True" else "False"
    case Int(i) => IntToString(i)
    case Str(s) => s
  }

  /** Python's `repr(v)`. */
  function Repr(v: Value): string
    decreases v, 1
  {
    match v
    case Str(s) => StrRepr(s)
    case List(items) => "[" + ReprItems(v, items) + "]"
    case Dict(entries) => "{" + ReprEntries(v, entries) + "}"
    case _ => ScalarStr(v)
  }

  function ReprItems(ghost parent: Value, items: seq<Value>): string
    requires forall k :: 0 <= k < |items| ==> items[k] < parent
    decreases parent, 0, |items|
  {
    if items == [] then ""
    else if |items| == 1 then Repr(items[0])
    else Repr(items[0]) + ", " + ReprItems(parent, items[1..])
  }

  function ReprEntries(ghost parent: Value, entries: Entries): string
    requires forall k :: 0 <= k < |entries| ==> entries[k].0 < parent && entries[k].1 < parent
    decreases parent, 0, |entries|
  {
    if entries == [] then ""
    else
      var entry := Repr(entries[0].0) + ": " + Repr(entries[0].1);
      if |entries| == 1 then entry else entry + ", " + ReprEntries(parent, entries[1..])
  }

  /** Python's `str(v)`: a string is itself, containers show the `repr` of their elements. */
  function PyStr(v: Value): (r: string)
    ensures v.Str? ==> r == v.s
  {
    if v.List? || v.Dict? then Repr(v) else ScalarStr(v)
  }

  /** Python's `bool(v)`. */
  predicate Truthy(v: Value)
  {
    match v
    case Null => false
    case Bool(b) => b
    case Int(i) => i != 0
    case Str(s) => s != []
    case List(items) => items != []
    case Dict(entries) => entries != []
  }

  /** The name `type(v).__name__` gives, as error messages quote it. */
  function TypeName(v: Value): string
  {
    match v
    case Null => "NoneType"
    case Bool(_) => "bool"
    case Int(_) => "int"
    case Str(_) => "str"
    case List(_) => "list"
    case Dict(_) => "dict"
  }

  predicate IsDigit(c: char)
  {
    '0' <= c <= '9'
  }

  /** The body of a decimal literal: digits, with single underscores only between digits. */
  predicate IsDigitRun(s: string)
  {
    s != [] && IsDigit(s[0]) && IsDigit(s[|s| - 1])
    && (forall i :: 0 <= i < |s| ==> IsDigit(s[i]) || s[i] == '_')
    && (forall i :: 0 <= i < |s| - 1 ==> s[i] == '_' ==> s[i + 1] != '_')
  }

  /** The digits of a run with its underscores left out. */
  function DropUnderscores(s: string): (r: string)
    requires forall i :: 0 <= i < |s| ==> IsDigit(s[i]) || s[i] == '_'
    ensures forall i :: 0 <= i < |r| ==> r[i] in Digits
  {
    if s == [] then []
    else if s[0] == '_' then DropUnderscores(s[1..])
    else (assert s[0] in Digits by { DigitIsListed(s[0]); }
          [s[0]] + DropUnderscores(s[1..]))
  }

  lemma DigitIsListed(c: char)
    requires IsDigit(c)
    ensures c in Digits
  {
    assert c == Digits[c as int - '0' as int];
  }

  /** The integer a base-10 literal denotes, once stripped: an optional sign and a digit run. */
  function ParseInt(t: string): Option<int>
  {
    if t != [] && (t[0] == '-' || t[0] == '+') then
      if IsDigitRun(t[1..]) then
        var n: int := DigitsValue(DropUnderscores(t[1..]));
        Some(if t[0] == '-' then -n else n)
      else None
    else if IsDigitRun(t) then Some(DigitsValue(DropUnderscores(t)))
    else None
  }

  /** Python's `int(s)` for a string of ASCII digits: surrounding whitespace is ignored. */
  function StrToInt(s: string): Result<int>
  {
    match ParseInt(Strip(s))
    case Some(n) => Ok(n)
    case None => Err(Failure(ValueError, "invalid literal for int() with base 10: " + StrRepr(s)))
  }

  const IntArgumentError: string := "int() argument must be a string, a bytes-like object or a real number, not '"

  /** Python's `int(v)` (base 10), with the exception it raises otherwise. */
  function ToInt(v: Value): (r: Result<int>)
    ensures v.Int? ==> r == Ok(v.i)
    ensures v.Null? || v.List? || v.Dict? ==> r.Err? && r.error.kind == TypeError
  {
    match v
    case Int(i) => Ok(i)
    case Bool(b) => Ok(if b then 1 else 0)
    case Str(s) => StrToInt(s)
    case _ => Err(Failure(TypeError, IntArgumentError + TypeName(v) + "'"))
  }

  /** Python's `==` on dictionary keys: `True == 1` and `False == 0`. */
  predicate KeyEq(a: Value, b: Value)
  {
    a == b
    || (a.Bool? && b.Int? && b.i == (if a.b then 1 else 0))
    || (a.Int? && b.Bool? && a.i == (if b.b then 1 else 0))
  }

  /** `d[k] = v`: an equal key keeps its place (and its first spelling) and takes the new value; a new key goes last. */
  function Put(d: Entries, k: Value, v: Value): (r: Entries)
    ensures |r| == |d| || |r| == |d| + 1
  {
    if d == [] then [(k, v)]
    else if KeyEq(d[0].0, k) then [(d[0].0, v)] + d[1..]
    else [d[0]] + Put(d[1..], k, v)
  }

  /** Whether a value can be a dictionary key. */
  predicate Hashable(v: Value)
  {
    !v.List? && !v.Dict?
  }

  /** The key/value pair element `x` of a `dict()` argument stands for, or the exception for element number `index`. */
  function PairOf(x: Value, index: nat): Result<(Value, Value)>
  {
    var length := "dictionary update sequence element #" + NatToString(index) + " has length ";
    match x
    case Str(s) =>
      if |s| == 2 then Ok((Str([s[0]]), Str([s[1]])))
      else Err(Failure(ValueError, length + NatToString(|s|) + "; 2 is required"))
    case List(xs) =>
      if |xs| != 2 then Err(Failure(ValueError, length + NatToString(|xs|) + "; 2 is required"))
      else if !Hashable(xs[0]) then Err(Failure(TypeError, "unhashable type: '" + TypeName(xs[0]) + "'"))
      else Ok((xs[0], xs[1]))
    case Dict(es) =>
      if |es| != 2 then Err(Failure(ValueError, length + NatToString(|es|) + "; 2 is required"))
      else if !Hashable(es[0].0) then Err(Failure(TypeError, "unhashable type: '" + TypeName(es[0].0) + "'"))
      else Ok((es[0].0, es[1].0))
    case _ => Err(Failure(TypeError, "cannot convert dictionary update sequence element #" + NatToString(index) + " to a sequence"))
  }

  /** `dict()` over the elements `xs[from..]`, inserting into `acc`. */
  function PairsToDict(xs: seq<Value>, from: nat, acc: Entries): Result<Entries>
    requires from <= |xs|
    decreases |xs| - from
  {
    if from == |xs| then Ok(acc)
    else match PairOf(xs[from], from)
      case Err(e) => Err(e)
      case Ok(pair) => PairsToDict(xs, from + 1, Put(acc, pair.0, pair.1))
  }

  /** Python's `dict(v)`: a dictionary is copied, an iterable of pairs is collected, anything else raises. */
  function ToDict(v: Value): (r: Result<Entries>)
    ensures v.Dict? ==> r == Ok(v.entries)
    ensures v.Null? || v.Bool? || v.Int? ==> r.Err? && r.error.kind == TypeError
  {
    match v
    case Dict(entries) => Ok(entries)
    case List(items) => PairsToDict(items, 0, [])
    case Str(s) => PairsToDict(seq(|s|, i requires 0 <= i < |s| => Str([s[i]])), 0, [])
    case _ => Err(Failure(TypeError, "'" + TypeName(v) + "' object is not iterable"))
  }

  /** The string a JSON object key becomes under `json.dumps`. */
  function JsonKey(k: Value): string
  {
    match k
    case Str(s) => s
    case Int(i) => IntToString(i)
    case Bool(b) => if b then "true" else "false"
    case Null => "null"
    case _ => ""  // list and dict keys are unhashable and never reach here
  }

  /** `json.loads(json.dumps(v))`: keys become strings, and of two keys that now coincide the later value wins. */
  function JsonRoundTrip(v: Value): Value
    decreases v, 1
  {
    match v
    case List(items) => List(JsonItems(v, items))
    case Dict(entries) => Dict(JsonEntries(v, entries, []))
    case _ => v
  }

  function JsonItems(ghost parent: Value, items: seq<Value>): (r: seq<Value>)
    requires forall k :: 0 <= k < |items| ==> items[k] < parent
    ensures |r| == |items|
    decreases parent, 0, |items|
  {
    if items == [] then [] else [JsonRoundTrip(items[0])] + JsonItems(parent, items[1..])
  }

  function JsonEntries(ghost parent: Value, entries: Entries, acc: Entries): Entries
    requires forall k :: 0 <= k < |entries| ==> entries[k].1 < parent
    decreases parent, 0, |entries|
  {
    if entries == [] then acc
    else JsonEntries(parent, entries[1..], Put(acc, Str(JsonKey(entries[0].0)), JsonRoundTrip(entries[0].1)))
  }

  /** Every dictionary inside `v` has string keys, no two alike: the values JSON itself produces. */
  predicate JsonShaped(v: Value)
    decreases v, 1
  {
    match v
    case List(items) => JsonShapedItems(v, items)
    case Dict(entries) => JsonShapedEntries(v, entries)
    case _ => true
  }

  predicate JsonShapedItems(ghost parent: Value, items: seq<Value>)
    requires forall k :: 0 <= k < |items| ==> items[k] < parent
    decreases parent, 0, |items|
  {
    items == [] || (JsonShaped(items[0]) && JsonShapedItems(parent, items[1..]))
  }

  predicate JsonShapedEntries(ghost parent: Value, entries: Entries)
    requires forall k :: 0 <= k < |entries| ==> entries[k].1 < parent
    decreases parent, 0, |entries|
  {
    entries == [] ||
    (entries[0].0.Str? && JsonShaped(entries[0].1)
     && (forall j :: 1 <= j < |entries| ==> entries[j].0 != entries[0].0)
     && JsonShapedEntries(parent, entries[1..]))
  }

  lemma ListedIsDigit(c: char)
    requires c in Digits
    ensures IsDigit(c)
  {
  }

  lemma {:induction false} DropNoUnderscores(s: string)
    requires forall i :: 0 <= i < |s| ==> s[i] in Digits
    ensures forall i :: 0 <= i < |s| ==> IsDigit(s[i]) || s[i] == '_'
    ensures DropUnderscores(s) == s
    decreases |s|
  {
    forall i | 0 <= i < |s| ensures IsDigit(s[i]) {
      ListedIsDigit(s[i]);
    }
    if s != [] {
      DropNoUnderscores(s[1..]);
    }
  }

  lemma {:induction false} DigitsAreRun(d: string)
    requires d != [] && forall i :: 0 <= i < |d| ==> d[i] in Digits
    ensures IsDigitRun(d) && DropUnderscores(d) == d
  {
    DropNoUnderscores(d);
    ListedIsDigit(d[0]);
    ListedIsDigit(d[|d| - 1]);
  }

  /** A plain run of digits parses to its value. */
  lemma {:induction false} ParseDigits(d: string)
    requires d != [] && forall i :: 0 <= i < |d| ==> d[i] in Digits
    ensures ParseInt(d) == Some(DigitsValue(d))
  {
    DigitsAreRun(d);
    assert d[0] != '-' && d[0] != '+' by { ListedIsDigit(d[0]); }
  }

  /** A sign followed by a digit run parses to the run's value, negated for a minus sign. */
  lemma SignedParse(sign: char, run: string)
    requires (sign == '-' || sign == '+') && IsDigitRun(run)
    ensures var n: int := DigitsValue(DropUnderscores(run));
      ParseInt([sign] + run) == Some(if sign == '-' then -n else n)
  {
    var t := [sign] + run;
    assert t[0] == sign && t[1..] == run;
  }

  /** `int(str(i)) == i`: rendering an integer and parsing it back gives the integer. */
  lemma {:induction false} ToIntRoundTrip(i: int)
    ensures ToInt(Str(IntToString(i))) == Ok(i)
  {
    var n: nat := if i < 0 then -i else i;
    var d := NatToString(n);
    NatToStringRoundTrip(n);
    var t := IntToString(i);
    if i < 0 {
      assert t == ['-'] + d;
      DigitsAreRun(d);
      SignedParse('-', d);
    } else {
      ParseDigits(d);
    }
    assert ParseInt(t) == Some(i);
    IntToStringUnspaced(i);
  }

  lemma IntToStringUnspaced(i: int)
    ensures Strip(IntToString(i)) == IntToString(i)
  {
    var n: nat := if i < 0 then -i else i;
    var d := NatToString(n);
    var t := IntToString(i);
    assert t[|t| - 1] == d[|d| - 1];
    ListedIsDigit(d[0]);
    ListedIsDigit(d[|d| - 1]);
    StripUnspaced(t);
  }

  /** After `d[k] = v` with a string key, `d.get(k)` is `v`. */
  lemma {:induction false} GetAfterPut(d: Entries, k: string, v: Value, default: Value)
    ensures Get(Put(d, Str(k), v), k, default) == v
  {
    if d != [] && !KeyEq(d[0].0, Str(k)) {
      GetAfterPut(d[1..], k, v, default);
    }
  }

  /** `d[k] = v` leaves the value under every other string key as it was. */
  lemma {:induction false} GetOtherAfterPut(d: Entries, k: string, v: Value, other: string, default: Value)
    requires other != k
    ensures Get(Put(d, Str(k), v), other, default) == Get(d, other, default)
  {
    if d != [] && !KeyEq(d[0].0, Str(k)) {
      GetOtherAfterPut(d[1..], k, v, other, default);
    }
  }

  /** Putting a key absent from the dictionary appends it. */
  lemma {:induction false} PutFresh(d: Entries, k: Value, v: Value)
    requires k.Str? && forall j :: 0 <= j < |d| ==> d[j].0 != k
    ensures Put(d, k, v) == d + [(k, v)]
  {
    if d != [] {
      PutFresh(d[1..], k, v);
    }
  }

  /**
    * Serialising to JSON and reading it back changes nothing for a value
    * JSON could have produced: the stores give back what they were given.
    */
  lemma {:induction false} JsonRoundTripShaped(v: Value)
    requires JsonShaped(v)
    ensures JsonRoundTrip(v) == v
    decreases v, 1
  {
    match v
    case List(items) => JsonItemsShaped(v, items);
    case Dict(entries) => JsonEntriesShaped(v, entries, []);
    case _ =>
  }

  lemma {:induction false} JsonItemsShaped(parent: Value, items: seq<Value>)
    requires forall k :: 0 <= k < |items| ==> items[k] < parent
    requires JsonShapedItems(parent, items)
    ensures JsonItems(parent, items) == items
    decreases parent, 0, |items|
  {
    if items != [] {
      JsonRoundTripShaped(items[0]);
      JsonItemsShaped(parent, items[1..]);
    }
  }

  lemma {:induction false} JsonEntriesShaped(parent: Value, entries: Entries, acc: Entries)
    requires forall k :: 0 <= k < |entries| ==> entries[k].1 < parent
    requires JsonShapedEntries(parent, entries)
    requires forall i, j :: 0 <= i < |acc| && 0 <= j < |entries| ==> acc[i].0 != entries[j].0
    ensures JsonEntries(parent, entries, acc) == acc + entries
    decreases parent, 0, |entries|
  {
    if entries != [] {
      var e := entries[0];
      JsonRoundTripShaped(e.1);
      assert JsonKey(e.0) == e.0.s;
      PutFresh(acc, e.0, e.1);
      var acc' := acc + [e];
      forall i, j | 0 <= i < |acc'| && 0 <= j < |entries[1..]| ensures acc'[i].0 != entries[1..][j].0 {
        assert entries[1..][j] == entries[j + 1];
      }
      JsonEntriesShaped(parent, entries[1..], acc');
      assert acc' + entries[1..] == acc + entries;
    }
  }
}
