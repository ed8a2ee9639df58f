/**
  * Intent routing for the desktop assistant: a typed line becomes one
  * intent, by exact keyword or by prefix, matched without regard to
  * letter case, with free conversation as the fallback.
  */
module Router {
  import opened Text

  /** An intent: its name and its string arguments. */
  datatype Intent = Intent(name: string, args: map<string, string>)

  /** An intent without arguments. */
  function Bare(name: string): Intent
  {
    Intent(name, map[])
  }

  const SavePrefix: string := "save "
  const VoiceModePrefix: string := "voice mode "
  const VoicePrefix: string := "voice "
  const VoiceFilePrefix: string := "voicefile "
  const ClonePrefix: string := "clonevoice "
  const ListenPrefix: string := "listen "
  const SystemPrefixes: seq<string> := ["open app ", "open web ", "search web ", "run shortcut "]
  const DefaultCloneName: string := "Aashi Custom Voice"

  /** The exact keywords, lower case, and the intent each one names. */
  const Keywords: map<string, string> := map[
    "exit" := "exit", "quit" := "exit", "help" := "help", "time" := "time", "date" := "date", "notes" := "notes",
    "voices" := "voices", "voice on" := "voice_on", "voice off" := "voice_off", "voicefiles" := "voice_files",
    "clone status" := "clone_status"]

  /** Every intent the router can produce. */
  const IntentNames: set<string> := {
    "exit", "help", "time", "date", "notes", "save_note", "voices", "voice_on", "voice_off", "voice_mode",
    "voice_set", "voice_files", "voice_file_set", "clone_train", "clone_status", "voice_input", "system_action", "chat"}

  /** The offset of the first whitespace character of `s`, or `|s|` when it has none. */
  function WordEnd(s: string): (r: nat)
    ensures r <= |s|
    ensures forall j :: 0 <= j < r ==> !IsSpace(s[j])
    ensures r < |s| ==> IsSpace(s[r])
  {
    if s == [] || IsSpace(s[0]) then 0 else 1 + WordEnd(s[1..])
  }

  /**
    * Python's `s.split(maxsplit=2)`: at most two words split off at runs of
    * whitespace, then the rest after the whitespace that follows them,
    * with its own trailing whitespace kept.
    */
  function SplitMax2(s: string): (parts: seq<string>)
    ensures |parts| <= 3
  {
    var a := TrimStart(s, Spaces);
    if a == [] then []
    else
      var i := WordEnd(a);
      var b := TrimStart(a[i..], Spaces);
      if b == [] then [a[..i]]
      else
        var j := WordEnd(b);
        var c := TrimStart(b[j..], Spaces);
        if c == [] then [a[..i], b[..j]] else [a[..i], b[..j], c]
  }

  /** The `clone_train` intent for the split words of the line. */
  function CloneIntent(parts: seq<string>): Intent
  {
    Intent("clone_train", map["filename" := if |parts| > 1 then parts[1] else "",
                              "name" := if |parts| == 3 then Strip(parts[2]) else DefaultCloneName])
  }

  /** Whether the lower-cased line starts with one of the shortcut prefixes handed to system control. */
  predicate SystemAction(lower: string)
  {
    exists k :: 0 <= k < |SystemPrefixes| && StartsWith(lower, SystemPrefixes[k])
  }

  /** `IntentRouter.route`. */
  function Route(text: string): (r: Intent)
    ensures r.name in IntentNames
  {
    var lower := Lower(text);
    if lower == "exit" || lower == "quit" then Bare("exit")
    else if lower == "help" then Bare("help")
    else if lower == "time" then Bare("time")
    else if lower == "date" then Bare("date")
    else if lower == "notes" then Bare("notes")
    else if StartsWith(lower, SavePrefix) then Intent("save_note", map["note" := Strip(text[5..])])
    else if lower == "voices" then Bare("voices")
    else if lower == "voice on" then Bare("voice_on")
    else if lower == "voice off" then Bare("voice_off")
    else if StartsWith(lower, VoiceModePrefix) then Intent("voice_mode", map["mode" := Lower(Strip(text[11..]))])
    else if StartsWith(lower, VoicePrefix) then Intent("voice_set", map["voice" := Strip(text[6..])])
    else if lower == "voicefiles" then Bare("voice_files")
    else if StartsWith(lower, VoiceFilePrefix) then Intent("voice_file_set", map["filename" := Strip(text[10..])])
    else if StartsWith(lower, ClonePrefix) then CloneIntent(SplitMax2(text))
    else if lower == "clone status" then Bare("clone_status")
    else if StartsWith(lower, ListenPrefix) then Intent("voice_input", map["filename" := Strip(text[7..])])
    else if SystemAction(lower) then Intent("system_action", map["text" := text])
    else Intent("chat", map["text" := text])
  }

  /** Whether some keyword or prefix rule claims the lower-cased line. */
  predicate Claimed(lower: string)
  {
    lower in Keywords || StartsWith(lower, SavePrefix) || StartsWith(lower, VoicePrefix) || StartsWith(lower, VoiceFilePrefix)
    || StartsWith(lower, ClonePrefix) || StartsWith(lower, ListenPrefix) || SystemAction(lower)
  }

  /**
    * The characters that tell the rules apart: a line that starts with a
    * prefix has that prefix's characters at these offsets.
    */
  lemma Distinguish(lower: string)
    ensures StartsWith(lower, SavePrefix) ==> lower[0] == 's' && lower[1] == 'a'
    ensures StartsWith(lower, VoicePrefix) ==> lower[0] == 'v' && lower[5] == ' '
    ensures StartsWith(lower, VoiceModePrefix) ==> lower[..6] == VoicePrefix && lower[6] == 'm'
    ensures StartsWith(lower, VoiceFilePrefix) ==> lower[0] == 'v' && lower[5] == 'f' && lower[9] == ' '
    ensures StartsWith(lower, ClonePrefix) ==> lower[0] == 'c' && lower[5] == 'v'
    ensures StartsWith(lower, ListenPrefix) ==> lower[0] == 'l'
    ensures StartsWith(lower, SystemPrefixes[0]) ==> lower[0] == 'o'
    ensures StartsWith(lower, SystemPrefixes[1]) ==> lower[0] == 'o'
    ensures StartsWith(lower, SystemPrefixes[2]) ==> lower[0] == 's' && lower[1] == 'e'
    ensures StartsWith(lower, SystemPrefixes[3]) ==> lower[0] == 'r'
    ensures SystemAction(lower) ==> lower[0] == 'o' || (lower[0] == 's' && lower[1] == 'e') || lower[0] == 'r'
  {
  }

  /**
    * An exact keyword, in any letter case, gives its intent without
    * arguments: no prefix rule ever captures a keyword.
    */
  lemma ExactKeyword(text: string)
    requires Lower(text) in Keywords
    ensures Route(text) == Bare(Keywords[Lower(text)])
  {
    Distinguish(Lower(text));
  }

  /** Free conversation is the fallback: exactly the lines no rule claims are chat, carrying the line unchanged. */
  lemma ChatIffUnclaimed(text: string)
    ensures Route(text).name == "chat" <==> !Claimed(Lower(text))
    ensures Route(text).name == "chat" ==> Route(text).args == map["text" := text]
  {
    Distinguish(Lower(text));
  }

  /** "save " gives the rest of the line, stripped, in its original case, as the note. */
  lemma SaveNote(text: string)
    requires StartsWith(Lower(text), SavePrefix)
    ensures Route(text) == Intent("save_note", map["note" := Strip(text[5..])])
  {
    Distinguish(Lower(text));
  }

  /**
    * Among the voice rules the exact "voice on" and "voice off" come
    * first, then the "voice mode " prefix (its argument lower-cased), and
    * only then the generic "voice " prefix.
    */
  lemma VoicePrecedence(text: string)
    requires StartsWith(Lower(text), VoicePrefix)
    ensures Lower(text) == "voice on" ==> Route(text) == Bare("voice_on")
    ensures Lower(text) == "voice off" ==> Route(text) == Bare("voice_off")
    ensures StartsWith(Lower(text), VoiceModePrefix) ==> Route(text) == Intent("voice_mode", map["mode" := Lower(Strip(text[11..]))])
    ensures Lower(text) != "voice on" && Lower(text) != "voice off" && !StartsWith(Lower(text), VoiceModePrefix)
      ==> Route(text) == Intent("voice_set", map["voice" := Strip(text[6..])])
  {
    Distinguish(Lower(text));
  }

  /** "listen " and "voicefile " carry the rest of the line, stripped, as a file name. */
  lemma FileArguments(text: string)
    ensures StartsWith(Lower(text), ListenPrefix) ==> Route(text) == Intent("voice_input", map["filename" := Strip(text[7..])])
    ensures StartsWith(Lower(text), VoiceFilePrefix) ==> Route(text) == Intent("voice_file_set", map["filename" := Strip(text[10..])])
  {
    Distinguish(Lower(text));
  }

  /** The shortcut prefixes hand the whole original line to system control. */
  lemma SystemActionKeepsText(text: string, k: nat)
    requires k < |SystemPrefixes| && StartsWith(Lower(text), SystemPrefixes[k])
    ensures Route(text) == Intent("system_action", map["text" := text])
  {
    Distinguish(Lower(text));
  }

  /** A word: non-empty, without whitespace. */
  predicate IsWord(w: string)
  {
    w != [] && forall j :: 0 <= j < |w| ==> !IsSpace(w[j])
  }

  /** Text that does not start with whitespace is not trimmed. */
  lemma TrimStartUnspaced(s: string)
    requires s == [] || !IsSpace(s[0])
    ensures TrimStart(s, Spaces) == s
  {
  }

  /** A word followed by nothing or by whitespace ends where the word ends. */
  lemma {:induction false} WordEndOf(w: string, rest: string)
    requires IsWord(w) && (rest == [] || IsSpace(rest[0]))
    ensures WordEnd(w + rest) == |w|
    decreases |w|
  {
    if |w| > 1 {
      WordEndOf(w[1..], rest);
      assert (w + rest)[1..] == w[1..] + rest;
    }
  }

  /**
    * `split(maxsplit=2)` on two words and a rest, each after a space,
    * gives back the two words and the rest.
    */
  lemma {:induction false} SplitThree(w0: string, w1: string, rest: string)
    requires IsWord(w0) && IsWord(w1) && rest != [] && !IsSpace(rest[0])
    ensures SplitMax2(w0 + " " + w1 + " " + rest) == [w0, w1, rest]
  {
    var s := w0 + " " + w1 + " " + rest;
    TrimStartUnspaced(s);
    assert s == w0 + (" " + w1 + " " + rest);
    WordEndOf(w0, " " + w1 + " " + rest);
    var b := w1 + " " + rest;
    assert s[|w0|..] == " " + b;
    TrimStartUnspaced(b);
    assert TrimStart(" " + b, Spaces) == b by {
      assert (" " + b)[1..] == b;
    }
    assert b == w1 + (" " + rest);
    WordEndOf(w1, " " + rest);
    assert b[|w1|..] == " " + rest;
    TrimStartUnspaced(rest);
    assert TrimStart(" " + rest, Spaces) == rest by {
      assert (" " + rest)[1..] == rest;
    }
    assert s[..|w0|] == w0 && b[..|w1|] == w1;
  }

  /** `split(maxsplit=2)` on two words after a space, with nothing after them, gives back the two words. */
  lemma {:induction false} SplitTwo(w0: string, w1: string)
    requires IsWord(w0) && IsWord(w1)
    ensures SplitMax2(w0 + " " + w1) == [w0, w1]
  {
    var s := w0 + " " + w1;
    TrimStartUnspaced(s);
    assert s == w0 + (" " + w1);
    WordEndOf(w0, " " + w1);
    assert s[|w0|..] == " " + w1;
    TrimStartUnspaced(w1);
    assert TrimStart(" " + w1, Spaces) == w1 by {
      assert (" " + w1)[1..] == w1;
    }
    assert w1 + [] == w1;
    WordEndOf(w1, []);
    assert s[..|w0|] == w0;
  }

  /** A word that lowers to a word of lower-case letters holds no whitespace. */
  lemma LettersAreWord(w: string, lower: string)
    requires Lower(w) == lower && lower != [] && forall j :: 0 <= j < |lower| ==> 'a' <= lower[j] <= 'z'
    ensures IsWord(w)
  {
    forall j | 0 <= j < |w| ensures !IsSpace(w[j]) {
      assert LowerChar(w[j]) == lower[j];
    }
  }

  /**
    * "clonevoice", in any letter case, then a file name and a voice name:
    * the file name and the stripped voice name are the arguments.
    */
  lemma {:induction false} CloneTrain(head: string, file: string, name: string)
    requires Lower(head) == "clonevoice" && IsWord(file) && name != [] && !IsSpace(name[0])
    ensures Route(head + " " + file + " " + name) == Intent("clone_train", map["filename" := file, "name" := Strip(name)])
  {
    var text := head + " " + file + " " + name;
    LettersAreWord(head, "clonevoice");
    LowerConcat(head + " ", file + " " + name);
    LowerConcat(head, " ");
    assert text == (head + " ") + (file + " " + name);
    assert StartsWith(Lower(text), ClonePrefix) by {
      assert Lower(text)[..11] == Lower(head + " ");
    }
    Distinguish(Lower(text));
    SplitThree(head, file, name);
  }

  /** "clonevoice", in any letter case, and a file name alone: the voice name is the default one. */
  lemma {:induction false} CloneTrainDefaultName(head: string, file: string)
    requires Lower(head) == "clonevoice" && IsWord(file)
    ensures Route(head + " " + file) == Intent("clone_train", map["filename" := file, "name" := DefaultCloneName])
  {
    var text := head + " " + file;
    LettersAreWord(head, "clonevoice");
    LowerConcat(head + " ", file);
    LowerConcat(head, " ");
    assert StartsWith(Lower(text), ClonePrefix) by {
      assert Lower(text)[..11] == Lower(head + " ");
    }
    Distinguish(Lower(text));
    SplitTwo(head, file);
  }
}
