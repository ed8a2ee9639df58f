/**
  * The assistant's persistent memory: a JSON object holding the saved
  * notes and the voice settings, brought back to a normal shape on load
  * and before every save, with accessors that read it defensively.
  */
module MemoryStore {
  import opened Wrappers
  import opened Values

  const DefaultVoiceName := "Samantha"
  const SystemMode := "system"
  const FileMode := "file"

  /** The voice settings a new memory starts with. */
  const DefaultVoice: Entries :=
    [(Str("enabled"), Bool(false)), (Str("name"), Str(DefaultVoiceName)), (Str("mode"), Str(SystemMode)), (Str("file"), Str(""))]

  /** The memory used when the file is missing, unreadable or not a JSON object. */
  const DefaultState: Entries := [(Str("notes"), List([])), (Str("voice"), Dict(DefaultVoice))]

  /** Whether the dictionary has the string key. */
  predicate HasKey(d: Entries, key: string)
  {
    d != [] && (d[0].0 == Str(key) || HasKey(d[1..], key))
  }

  /** `d.setdefault(key, default)`, as the dictionary it leaves. */
  function SetDefault(d: Entries, key: string, default: Value): Entries
  {
    if HasKey(d, key) then d else d + [(Str(key), default)]
  }

  /** The four voice settings, each set to its default when missing. */
  function VoiceDefaults(v: Entries): Entries
  {
    SetDefault(SetDefault(SetDefault(SetDefault(v, "enabled", Bool(false)), "name", Str(DefaultVoiceName)), "mode", Str(SystemMode)), "file", Str(""))
  }

  /** The voice settings `_normalize` works on: the stored dictionary, or an empty one in place of anything else, defaulted. */
  function VoiceSettings(d: Entries): Entries
  {
    var existing := Get(SetDefault(d, "notes", List([])), "voice", Null);
    VoiceDefaults(if existing.Dict? then existing.entries else [])
  }

  /** The voice settings with a mode other than "system" or "file" reset to "system". */
  function SettledVoice(v: Entries): Entries
  {
    var mode := Get(v, "mode", Null);
    if mode == Str(SystemMode) || mode == Str(FileMode) then v else Put(v, Str("mode"), Str(SystemMode))
  }

  /** What `_normalize` leaves in `data`, and the exception it raised, if any. */
  datatype Normalization = Normalization(data: Entries, failure: Option<Failure>)

  /**
    * `_normalize`: notes and voice set to defaults when missing, a voice
    * that is not a dictionary replaced by an empty one, the four voice
    * settings defaulted, and a mode other than "system" or "file" reset to
    * "system". Testing the mode against that set raises `TypeError` when
    * the mode is a list or a dictionary, after the defaults are in place.
    */
  function Normalize(d: Entries): Normalization
  {
    var d1 := SetDefault(d, "notes", List([]));
    var voice := VoiceSettings(d);
    var mode := Get(voice, "mode", Null);
    if !Hashable(mode) then
      Normalization(Put(d1, Str("voice"), Dict(voice)), Some(Failure(TypeError, "unhashable type: '" + TypeName(mode) + "'")))
    else
      Normalization(Put(d1, Str("voice"), Dict(SettledVoice(voice))), None)
  }

  /** The four voice settings. */
  predicate VoiceField(key: string)
  {
    key == "enabled" || key == "name" || key == "mode" || key == "file"
  }

  /** Voice settings with all four fields and a mode of "system" or "file". */
  predicate VoiceComplete(v: Entries)
  {
    HasKey(v, "enabled") && HasKey(v, "name") && HasKey(v, "mode") && HasKey(v, "file")
    && (Get(v, "mode", Null) == Str(SystemMode) || Get(v, "mode", Null) == Str(FileMode))
  }

  /** The voice entry is a dictionary (or missing, which reads as an empty one). */
  predicate VoiceIsDict(d: Entries)
  {
    Get(d, "voice", Dict([])).Dict?
  }

  /** A memory in normal shape: notes present, and complete voice settings. */
  predicate Normal(d: Entries)
  {
    HasKey(d, "notes") && HasKey(d, "voice") && VoiceIsDict(d) && VoiceComplete(Get(d, "voice", Dict([])).entries)
  }

  /** `self.data.get("voice", {})`. */
  function VoiceOf(d: Entries): Entries
    requires VoiceIsDict(d)
  {
    Get(d, "voice", Dict([])).entries
  }

  /** `notes()`: each saved note as a string, or none when the entry is not a list. */
  function NotesOf(d: Entries): (r: seq<string>)
    ensures Get(d, "notes", List([])).List? ==> |r| == |Get(d, "notes", List([])).items|
    ensures !Get(d, "notes", List([])).List? ==> r == []
  {
    var raw := Get(d, "notes", List([]));
    if raw.List? then seq(|raw.items|, i requires 0 <= i < |raw.items| => PyStr(raw.items[i])) else []
  }

  /** `voice_enabled()`: the truth value of the setting. */
  predicate EnabledOf(d: Entries)
    requires VoiceIsDict(d)
  {
    EnabledIn(VoiceOf(d))
  }

  predicate EnabledIn(voice: Entries)
  {
    Truthy(Get(voice, "enabled", Bool(false)))
  }

  /** `voice_name()`. */
  function NameOf(d: Entries): string
    requires VoiceIsDict(d)
  {
    NameIn(VoiceOf(d))
  }

  function NameIn(voice: Entries): string
  {
    PyStr(Get(voice, "name", Str(DefaultVoiceName)))
  }

  /** `voice_mode()`: the mode as a string, read as "system" unless it is "system" or "file". */
  function ModeOf(d: Entries): (r: string)
    requires VoiceIsDict(d)
    ensures r == SystemMode || r == FileMode
  {
    ModeIn(VoiceOf(d))
  }

  function ModeIn(voice: Entries): (r: string)
    ensures r == SystemMode || r == FileMode
  {
    var mode := PyStr(Get(voice, "mode", Str(SystemMode)));
    if mode == SystemMode || mode == FileMode then mode else SystemMode
  }

  /** `voice_file()`. */
  function FileOf(d: Entries): string
    requires VoiceIsDict(d)
  {
    FileIn(VoiceOf(d))
  }

  function FileIn(voice: Entries): string
  {
    PyStr(Get(voice, "file", Str("")))
  }

  /** `self.data.setdefault("voice", {})[key] = value` on a memory whose voice entry is a dictionary. */
  function WithVoiceField(d: Entries, key: string, value: Value): Entries
    requires VoiceIsDict(d)
  {
    Put(d, Str("voice"), Dict(Put(VoiceOf(d), Str(key), value)))
  }

  /** A list of strings. */
  function StrList(xs: seq<string>): (r: Value)
    ensures r.List? && |r.items| == |xs| && forall i :: 0 <= i < |xs| ==> r.items[i] == Str(xs[i])
  {
    List(seq(|xs|, i requires 0 <= i < |xs| => Str(xs[i])))
  }

  /** The memory `add_note` leaves: the notes as read, then the new one, stored as a list of strings. */
  function NotesWith(d: Entries, text: string): Entries
  {
    Put(d, Str("notes"), StrList(NotesOf(d) + [text]))
  }

  /** What reading the memory file gives: nothing, an `OSError` or malformed JSON, or a parsed value. */
  datatype FileRead = Missing | Unreadable | Parsed(value: Value)

  /** `_load`: the defaults unless the file holds a JSON object, which is then normalized. */
  function Loaded(read: FileRead): Normalization
  {
    match read
    case Parsed(Dict(entries)) => Normalize(entries)
    case _ => Normalization(DefaultState, None)
  }

  /** The memory store: the data in memory, and what its last save wrote to the file. */
  class Store {
    var data: Entries
    var written: Option<Entries>

    predicate Valid()
      reads this
    {
      Normal(data)
    }

    constructor FromData(data: Entries)
      requires Normal(data)
      ensures Valid() && this.data == data && written.None?
    {
      this.data := data;
      written := None;
    }

    /** `MemoryStore(path)`: the store over the file as read, or the exception normalizing it raised. */
    static method Open(read: FileRead) returns (r: Result<Store>)
      ensures Loaded(read).failure.Some? ==> r == Err(Loaded(read).failure.value)
      ensures Loaded(read).failure.None? ==> r.Ok? && fresh(r.value) && r.value.Valid()
                                             && r.value.data == Loaded(read).data && r.value.written.None?
    {
      var loaded := Loaded(read);
      if loaded.failure.Some? {
        return Err(loaded.failure.value);
      }
      LoadedNormal(read);
      var store := new Store.FromData(loaded.data);
      return Ok(store);
    }

    /** `save()`: normalizing a valid memory changes nothing, and the data is written out. */
    method Save()
      requires Valid()
      modifies this
      ensures Valid() && data == old(data) && written == Some(data)
    {
      NormalizeFixesNormal(data);
      data := Normalize(data).data;
      written := Some(data);
    }

    /** Normalizes the data after a setter and writes it out. */
    method Persist()
      requires Normalize(data).failure.None?
      modifies this
      ensures Valid() && data == Normalize(old(data)).data && written == Some(data)
    {
      NormalizeMakesNormal(data);
      data := Normalize(data).data;
      written := Some(data);
    }

    /** `add_note(text)`: the note goes after the existing ones. */
    method AddNote(text: string)
      requires Valid()
      modifies this
      ensures Valid() && written == Some(data)
      ensures data == NotesWith(old(data), text) && NotesOf(data) == NotesOf(old(data)) + [text]
    {
      AddNoteEffect(data, text);
      NoteKeepsVoice(data, text);
      data := NotesWith(data, text);
      Save();
    }

    /** `set_voice_enabled(enabled)`. */
    method SetVoiceEnabled(enabled: bool)
      requires Valid()
      modifies this
      ensures Valid() && written == Some(data)
      ensures data == Normalize(WithVoiceField(old(data), "enabled", Bool(enabled))).data
    {
      SetFieldEffect(data, "enabled", Bool(enabled));
      data := WithVoiceField(data, "enabled", Bool(enabled));
      Persist();
    }

    /** `set_voice_name(name)`. */
    method SetVoiceName(name: string)
      requires Valid()
      modifies this
      ensures Valid() && written == Some(data)
      ensures data == Normalize(WithVoiceField(old(data), "name", Str(name))).data
    {
      SetFieldEffect(data, "name", Str(name));
      data := WithVoiceField(data, "name", Str(name));
      Persist();
    }

    /** `set_voice_mode(mode)`: a mode other than "system" or "file" is stored as "system" by the save. */
    method SetVoiceMode(mode: string)
      requires Valid()
      modifies this
      ensures Valid() && written == Some(data)
      ensures data == Normalize(WithVoiceField(old(data), "mode", Str(mode))).data
    {
      SetFieldEffect(data, "mode", Str(mode));
      data := WithVoiceField(data, "mode", Str(mode));
      Persist();
    }

    /** `set_voice_file(filename)`. */
    method SetVoiceFile(filename: string)
      requires Valid()
      modifies this
      ensures Valid() && written == Some(data)
      ensures data == Normalize(WithVoiceField(old(data), "file", Str(filename))).data
    {
      SetFieldEffect(data, "file", Str(filename));
      data := WithVoiceField(data, "file", Str(filename));
      Persist();
    }
  }

  // Dictionary facts

  /** With the key present, the default given to `get` does not matter. */
  lemma {:induction false} GetPresent(d: Entries, key: string, x: Value, y: Value)
    requires HasKey(d, key)
    ensures Get(d, key, x) == Get(d, key, y)
  {
    if d[0].0 != Str(key) {
      GetPresent(d[1..], key, x, y);
    }
  }

  /** Without the key, `get` gives the default. */
  lemma {:induction false} GetAbsent(d: Entries, key: string, x: Value)
    requires !HasKey(d, key)
    ensures Get(d, key, x) == x
  {
    if d != [] {
      GetAbsent(d[1..], key, x);
    }
  }

  /** Appending an entry adds its key and leaves the value of every key already present. */
  lemma {:induction false} AppendFacts(d: Entries, key: string, v: Value, other: string, x: Value)
    ensures HasKey(d + [(Str(key), v)], other) <==> HasKey(d, other) || other == key
    ensures Get(d + [(Str(key), v)], other, x) == if HasKey(d, other) then Get(d, other, x) else if other == key then v else x
  {
    if d == [] {
      assert d + [(Str(key), v)] == [(Str(key), v)];
      assert HasKey([(Str(key), v)], other) <==> other == key by {
        assert [(Str(key), v)][1..] == [];
      }
    } else {
      assert (d + [(Str(key), v)])[1..] == d[1..] + [(Str(key), v)];
      AppendFacts(d[1..], key, v, other, x);
    }
  }

  /** `setdefault` adds its key and leaves the value of every key already present. */
  lemma SetDefaultFacts(d: Entries, key: string, v: Value, other: string, x: Value)
    ensures HasKey(SetDefault(d, key, v), other) <==> HasKey(d, other) || other == key
    ensures Get(SetDefault(d, key, v), other, x) == if HasKey(d, other) then Get(d, other, x) else if other == key then v else x
  {
    AppendFacts(d, key, v, other, x);
    if !HasKey(d, other) {
      GetAbsent(d, other, x);
    }
  }

  /** Assigning a string key adds that key and no other. */
  lemma {:induction false} PutHasKey(d: Entries, key: string, v: Value, other: string)
    ensures HasKey(Put(d, Str(key), v), other) <==> HasKey(d, other) || other == key
  {
    if d != [] && !KeyEq(d[0].0, Str(key)) {
      PutHasKey(d[1..], key, v, other);
    }
  }

  /** Assigning a key its own value changes nothing. */
  lemma {:induction false} PutSame(d: Entries, key: string, x: Value)
    requires HasKey(d, key)
    ensures Put(d, Str(key), Get(d, key, x)) == d
  {
    if d[0].0 != Str(key) {
      PutSame(d[1..], key, x);
    }
  }

  /** Assigning a key, then assigning it again, is the second assignment alone. */
  lemma {:induction false} PutPut(d: Entries, key: string, v: Value, w: Value)
    ensures Put(Put(d, Str(key), v), Str(key), w) == Put(d, Str(key), w)
  {
    if d != [] && !KeyEq(d[0].0, Str(key)) {
      PutPut(d[1..], key, v, w);
    }
  }

  /** The value under any string key after an assignment. */
  lemma PutGet(d: Entries, key: string, v: Value, other: string, x: Value)
    ensures Get(Put(d, Str(key), v), other, x) == if other == key then v else Get(d, other, x)
  {
    if other == key {
      GetAfterPut(d, key, v, x);
    } else {
      GetOtherAfterPut(d, key, v, other, x);
    }
  }

  // Normalization

  /** The default voice settings hold their four values. */
  lemma DefaultVoiceFields(x: Value)
    ensures HasKey(DefaultVoice, "enabled") && Get(DefaultVoice, "enabled", x) == Bool(false)
    ensures HasKey(DefaultVoice, "name") && Get(DefaultVoice, "name", x) == Str(DefaultVoiceName)
    ensures HasKey(DefaultVoice, "mode") && Get(DefaultVoice, "mode", x) == Str(SystemMode)
    ensures HasKey(DefaultVoice, "file") && Get(DefaultVoice, "file", x) == Str("")
  {
    var v1 := DefaultVoice[1..];
    var v2 := v1[1..];
    var v3 := v2[1..];
    assert v1[0].0 == Str("name") && v2[0].0 == Str("mode") && v3[0].0 == Str("file");
    assert "enabled"[0] != "name"[0] && "enabled"[0] != "mode"[0] && "enabled"[0] != "file"[0];
    assert "name"[0] != "mode"[0] && "name"[0] != "file"[0] && "mode"[0] != "file"[0];
    assert HasKey(v3, "file") && Get(v3, "file", x) == Str("");
    assert HasKey(v2, "mode") && Get(v2, "mode", x) == Str(SystemMode);
    assert HasKey(v2, "file") && Get(v2, "file", x) == Str("");
    assert HasKey(v1, "mode") && Get(v1, "mode", x) == Str(SystemMode);
    assert HasKey(v1, "file") && Get(v1, "file", x) == Str("");
  }

  /** The default memory holds no notes and the default voice settings. */
  lemma DefaultStateFields(x: Value)
    ensures HasKey(DefaultState, "notes") && Get(DefaultState, "notes", x) == List([])
    ensures HasKey(DefaultState, "voice") && Get(DefaultState, "voice", x) == Dict(DefaultVoice)
  {
    assert DefaultState[1..][0].0 == Str("voice");
    assert "notes"[0] != "voice"[0];
  }

  /** The default memory is in normal shape. */
  lemma DefaultNormal()
    ensures Normal(DefaultState)
  {
    DefaultStateFields(Dict([]));
    DefaultVoiceFields(Null);
  }

  /** The default memory reads as no notes, voice off, and the default name, mode and file. */
  lemma DefaultAccessors()
    ensures VoiceIsDict(DefaultState) && NotesOf(DefaultState) == [] && !EnabledOf(DefaultState)
    ensures NameOf(DefaultState) == DefaultVoiceName && ModeOf(DefaultState) == SystemMode && FileOf(DefaultState) == ""
  {
    assert VoiceIsDict(DefaultState) && VoiceOf(DefaultState) == DefaultVoice by {
      DefaultStateFields(Dict([]));
    }
    assert NotesOf(DefaultState) == [] by {
      DefaultStateFields(List([]));
    }
    assert !EnabledOf(DefaultState) by {
      DefaultVoiceFields(Bool(false));
    }
    assert NameOf(DefaultState) == DefaultVoiceName by {
      DefaultVoiceFields(Str(DefaultVoiceName));
    }
    assert ModeOf(DefaultState) == SystemMode by {
      DefaultVoiceFields(Str(SystemMode));
    }
    assert FileOf(DefaultState) == "" by {
      DefaultVoiceFields(Str(""));
    }
  }

  /** The keys the memory uses are distinct. */
  lemma KeysDistinct()
    ensures "notes" != "voice"
    ensures "enabled" != "name" && "enabled" != "mode" && "enabled" != "file"
    ensures "name" != "mode" && "name" != "file" && "mode" != "file"
  {
    assert "notes"[0] != "voice"[0];
    assert "name"[0] != "mode"[0] && "name"[0] != "file"[0] && "mode"[0] != "file"[0];
  }

  /**
    * Defaulting the voice settings adds exactly the four fields, keeps the
    * value of every field already there, and gives a missing mode "system".
    */
  lemma VoiceDefaultsAt(v: Entries, key: string, x: Value)
    ensures HasKey(VoiceDefaults(v), key) <==> HasKey(v, key) || VoiceField(key)
    ensures HasKey(v, key) ==> Get(VoiceDefaults(v), key, x) == Get(v, key, x)
    ensures key == "mode" && !HasKey(v, key) ==> Get(VoiceDefaults(v), key, x) == Str(SystemMode)
  {
    KeysDistinct();
    var v1 := SetDefault(v, "enabled", Bool(false));
    var v2 := SetDefault(v1, "name", Str(DefaultVoiceName));
    var v3 := SetDefault(v2, "mode", Str(SystemMode));
    SetDefaultFacts(v, "enabled", Bool(false), key, x);
    SetDefaultFacts(v1, "name", Str(DefaultVoiceName), key, x);
    SetDefaultFacts(v2, "mode", Str(SystemMode), key, x);
    SetDefaultFacts(v3, "file", Str(""), key, x);
  }

  /** Voice settings holding all four fields are left as they are by defaulting. */
  lemma VoiceDefaultsComplete(v: Entries)
    requires HasKey(v, "enabled") && HasKey(v, "name") && HasKey(v, "mode") && HasKey(v, "file")
    ensures VoiceDefaults(v) == v
  {
  }

  /**
    * The voice settings `_normalize` works on hold the four fields, and
    * every field of a stored voice dictionary with its stored value; a
    * mode not stored there is "system".
    */
  lemma VoiceSettingsAt(d: Entries, key: string, x: Value)
    ensures var v := Get(d, "voice", Null);
      var present := v.Dict? && HasKey(v.entries, key);
      (HasKey(VoiceSettings(d), key) <==> present || VoiceField(key))
      && (present ==> Get(VoiceSettings(d), key, x) == Get(v.entries, key, x))
      && (key == "mode" && !present ==> Get(VoiceSettings(d), key, x) == Str(SystemMode))
  {
    KeysDistinct();
    SetDefaultFacts(d, "notes", List([]), "voice", Null);
    if !HasKey(d, "voice") {
      GetAbsent(d, "voice", Null);
    }
    var existing := Get(SetDefault(d, "notes", List([])), "voice", Null);
    VoiceDefaultsAt(if existing.Dict? then existing.entries else [], key, x);
  }

  /** Settling the mode keeps the fields, leaves every other field's value, and makes the mode "system" or "file". */
  lemma SettledVoiceFacts(v: Entries, key: string, x: Value)
    ensures HasKey(v, key) ==> HasKey(SettledVoice(v), key)
    ensures key != "mode" ==> Get(SettledVoice(v), key, x) == Get(v, key, x)
    ensures Get(SettledVoice(v), "mode", Null) == Str(SystemMode) || Get(SettledVoice(v), "mode", Null) == Str(FileMode)
  {
    var mode := Get(v, "mode", Null);
    if mode != Str(SystemMode) && mode != Str(FileMode) {
      PutHasKey(v, "mode", Str(SystemMode), key);
      PutGet(v, "mode", Str(SystemMode), key, x);
      PutGet(v, "mode", Str(SystemMode), "mode", Null);
    }
  }

  /** Normalizing a memory already in normal shape changes nothing and raises nothing. */
  lemma NormalizeFixesNormal(d: Entries)
    requires Normal(d)
    ensures Normalize(d) == Normalization(d, None)
  {
    var voice := Get(d, "voice", Dict([]));
    GetPresent(d, "voice", Dict([]), Null);
    assert VoiceSettings(d) == voice.entries by {
      VoiceDefaultsComplete(voice.entries);
    }
    assert SettledVoice(voice.entries) == voice.entries;
    PutSame(d, "voice", Null);
  }

  /**
    * Normalizing raises exactly when the voice entry is a dictionary whose
    * mode is a list or a dictionary, and names the mode's type.
    */
  lemma NormalizeFailsIff(d: Entries)
    ensures var voice := Get(d, "voice", Null);
      Normalize(d).failure.Some?
      <==> voice.Dict? && HasKey(voice.entries, "mode") && !Hashable(Get(voice.entries, "mode", Null))
    ensures var voice := Get(d, "voice", Null);
      Normalize(d).failure.Some? ==>
        Normalize(d).failure.value == Failure(TypeError, "unhashable type: '" + TypeName(Get(voice.entries, "mode", Null)) + "'")
  {
    VoiceSettingsAt(d, "mode", Null);
  }

  /** After normalizing without error, the memory is in normal shape. */
  lemma NormalizeMakesNormal(d: Entries)
    requires Normalize(d).failure.None?
    ensures Normal(Normalize(d).data)
  {
    var d1 := SetDefault(d, "notes", List([]));
    var voice := VoiceSettings(d);
    var settled := SettledVoice(voice);
    assert Normalize(d).data == Put(d1, Str("voice"), Dict(settled));
    assert HasKey(d1, "notes") by {
      SetDefaultFacts(d, "notes", List([]), "notes", Null);
    }
    PutHasKey(d1, "voice", Dict(settled), "notes");
    PutHasKey(d1, "voice", Dict(settled), "voice");
    PutGet(d1, "voice", Dict(settled), "voice", Dict([]));
    assert HasKey(voice, "enabled") && HasKey(voice, "name") && HasKey(voice, "mode") && HasKey(voice, "file") by {
      VoiceSettingsAt(d, "enabled", Null);
      VoiceSettingsAt(d, "name", Null);
      VoiceSettingsAt(d, "mode", Null);
      VoiceSettingsAt(d, "file", Null);
    }
    assert VoiceComplete(settled) by {
      SettledVoiceFacts(voice, "enabled", Null);
      SettledVoiceFacts(voice, "name", Null);
      SettledVoiceFacts(voice, "mode", Null);
      SettledVoiceFacts(voice, "file", Null);
    }
  }

  /** Normalizing is idempotent. */
  lemma NormalizeIdempotent(d: Entries)
    requires Normalize(d).failure.None?
    ensures Normalize(Normalize(d).data) == Normalize(d)
  {
    NormalizeMakesNormal(d);
    NormalizeFixesNormal(Normalize(d).data);
  }

  /** Normalizing keeps every top-level entry other than the notes and the voice, and notes already present. */
  lemma NormalizeKeeps(d: Entries, key: string, x: Value)
    requires key != "voice"
    requires key != "notes" || HasKey(d, "notes")
    ensures Get(Normalize(d).data, key, x) == Get(d, key, x)
  {
    var d1 := SetDefault(d, "notes", List([]));
    var voice := VoiceSettings(d);
    var stored := if Normalize(d).failure.Some? then Dict(voice) else Dict(SettledVoice(voice));
    assert Normalize(d).data == Put(d1, Str("voice"), stored);
    PutGet(d1, "voice", stored, key, x);
    SetDefaultFacts(d, "notes", List([]), key, x);
    if key != "notes" && !HasKey(d, key) {
      GetAbsent(d, key, x);
    }
  }

  /**
    * Loading gives a memory in normal shape unless normalizing the file's
    * object raised; a file that is missing, unreadable or not an object
    * gives the defaults.
    */
  lemma LoadedNormal(read: FileRead)
    ensures Loaded(read).failure.None? ==> Normal(Loaded(read).data)
    ensures !(read.Parsed? && read.value.Dict?) ==> Loaded(read) == Normalization(DefaultState, None)
  {
    if read.Parsed? && read.value.Dict? {
      if Loaded(read).failure.None? {
        NormalizeMakesNormal(read.value.entries);
      }
    } else {
      DefaultNormal();
    }
  }

  // Accessors and setters

  /** Setting a field of a memory in normal shape leaves the four fields and the notes in place. */
  lemma WithVoiceFieldShape(d: Entries, key: string, value: Value)
    requires Normal(d) && VoiceField(key)
    ensures var e := WithVoiceField(d, key, value);
      var updated := Put(VoiceOf(d), Str(key), value);
      HasKey(e, "notes") && HasKey(e, "voice") && Get(e, "voice", Null) == Dict(updated) && Get(e, "voice", Dict([])) == Dict(updated)
      && HasKey(updated, "enabled") && HasKey(updated, "name") && HasKey(updated, "mode") && HasKey(updated, "file")
  {
    var voice := VoiceOf(d);
    var updated := Put(voice, Str(key), value);
    PutHasKey(d, "voice", Dict(updated), "notes");
    PutHasKey(d, "voice", Dict(updated), "voice");
    PutGet(d, "voice", Dict(updated), "voice", Null);
    PutGet(d, "voice", Dict(updated), "voice", Dict([]));
    PutHasKey(voice, key, value, "enabled");
    PutHasKey(voice, key, value, "name");
    PutHasKey(voice, key, value, "mode");
    PutHasKey(voice, key, value, "file");
  }

  /**
    * Setting one voice field of a memory in normal shape and normalizing
    * raises nothing and changes that field alone: a mode other than
    * "system" or "file" is stored as "system", and any other value as given.
    */
  lemma SetFieldEffect(d: Entries, key: string, value: Value)
    requires Normal(d) && VoiceField(key) && (key == "mode" ==> value.Str?)
    ensures var n := Normalize(WithVoiceField(d, key, value));
      var stored := if key == "mode" && value != Str(SystemMode) && value != Str(FileMode) then Str(SystemMode) else value;
      n == Normalization(WithVoiceField(d, key, stored), None)
  {
    var voice := VoiceOf(d);
    var updated := Put(voice, Str(key), value);
    var e := WithVoiceField(d, key, value);
    WithVoiceFieldShape(d, key, value);
    assert VoiceSettings(e) == updated by {
      VoiceDefaultsComplete(updated);
    }
    assert Get(updated, "mode", Null) == if key == "mode" then value else Get(voice, "mode", Null) by {
      PutGet(voice, key, value, "mode", Null);
    }
    assert Normalize(e) == Normalization(Put(e, Str("voice"), Dict(SettledVoice(updated))), None);
    PutPut(d, "voice", Dict(updated), Dict(SettledVoice(updated)));
    if key == "mode" && value != Str(SystemMode) && value != Str(FileMode) {
      PutPut(voice, "mode", value, Str(SystemMode));
    }
  }

  /** After setting a voice field, the voice settings are the stored ones with that field assigned, and the notes are as before. */
  lemma VoiceAfterSet(d: Entries, key: string, value: Value)
    requires Normal(d) && VoiceField(key)
    ensures var e := WithVoiceField(d, key, value);
      VoiceIsDict(e) && VoiceOf(e) == Put(VoiceOf(d), Str(key), value) && NotesOf(e) == NotesOf(d)
  {
    var updated := Put(VoiceOf(d), Str(key), value);
    assert Get(WithVoiceField(d, key, value), "voice", Dict([])) == Dict(updated) by {
      PutGet(d, "voice", Dict(updated), "voice", Dict([]));
    }
    assert Get(WithVoiceField(d, key, value), "notes", List([])) == Get(d, "notes", List([])) by {
      KeysDistinct();
      PutGet(d, "voice", Dict(updated), "notes", List([]));
    }
  }

  /** Assigning one voice field changes what the enabled flag and the name read as only when it is that field. */
  lemma EnabledNameAfterPut(voice: Entries, key: string, value: Value)
    ensures var updated := Put(voice, Str(key), value);
      (EnabledIn(updated) == if key == "enabled" then Truthy(value) else EnabledIn(voice))
      && (NameIn(updated) == if key == "name" then PyStr(value) else NameIn(voice))
  {
    PutGet(voice, key, value, "enabled", Bool(false));
    PutGet(voice, key, value, "name", Str(DefaultVoiceName));
  }

  /** Assigning one voice field changes what the mode and the file read as only when it is that field. */
  lemma ModeFileAfterPut(voice: Entries, key: string, value: Value)
    ensures var updated := Put(voice, Str(key), value);
      (key == "mode" && (value == Str(SystemMode) || value == Str(FileMode)) ==> ModeIn(updated) == value.s)
      && (key != "mode" ==> ModeIn(updated) == ModeIn(voice))
      && (FileIn(updated) == if key == "file" then PyStr(value) else FileIn(voice))
  {
    PutGet(voice, key, value, "mode", Str(SystemMode));
    PutGet(voice, key, value, "file", Str(""));
  }

  /** After setting a voice field, the accessor for it reads the new value and the others read what they did. */
  lemma AccessorsAfterSet(d: Entries, key: string, value: Value)
    requires Normal(d) && VoiceField(key)
    ensures var e := WithVoiceField(d, key, value);
      VoiceIsDict(e)
      && NotesOf(e) == NotesOf(d)
      && (EnabledOf(e) == if key == "enabled" then Truthy(value) else EnabledOf(d))
      && (NameOf(e) == if key == "name" then PyStr(value) else NameOf(d))
      && (key == "mode" && (value == Str(SystemMode) || value == Str(FileMode)) ==> ModeOf(e) == value.s)
      && (key != "mode" ==> ModeOf(e) == ModeOf(d))
      && (FileOf(e) == if key == "file" then PyStr(value) else FileOf(d))
  {
    VoiceAfterSet(d, key, value);
    EnabledNameAfterPut(VoiceOf(d), key, value);
    ModeFileAfterPut(VoiceOf(d), key, value);
  }

  /**
    * A setter followed by the save: the field set reads back as given
    * (the mode as "system" when it is neither "system" nor "file"), the
    * memory stays in normal shape, and the other settings and the notes
    * read as before.
    */
  lemma SetterReadsBack(d: Entries, key: string, value: Value)
    requires Normal(d) && VoiceField(key) && (key == "mode" ==> value.Str?)
    ensures var n := Normalize(WithVoiceField(d, key, value)).data;
      Normal(n) && NotesOf(n) == NotesOf(d)
      && (key == "enabled" ==> EnabledOf(n) == Truthy(value))
      && (key != "enabled" ==> EnabledOf(n) == EnabledOf(d))
      && (key == "name" ==> NameOf(n) == PyStr(value))
      && (key != "name" ==> NameOf(n) == NameOf(d))
      && (key == "mode" ==> ModeOf(n) == if value.s == SystemMode || value.s == FileMode then value.s else SystemMode)
      && (key != "mode" ==> ModeOf(n) == ModeOf(d))
      && (key == "file" ==> FileOf(n) == PyStr(value))
      && (key != "file" ==> FileOf(n) == FileOf(d))
  {
    var stored := if key == "mode" && value != Str(SystemMode) && value != Str(FileMode) then Str(SystemMode) else value;
    SetFieldEffect(d, key, value);
    NormalizeMakesNormal(WithVoiceField(d, key, value));
    AccessorsAfterSet(d, key, stored);
  }

  /** `add_note`: the notes read back with the new one last. */
  lemma AddNoteEffect(d: Entries, text: string)
    ensures NotesOf(NotesWith(d, text)) == NotesOf(d) + [text]
  {
    var notes := NotesOf(d) + [text];
    PutGet(d, "notes", StrList(notes), "notes", List([]));
    assert NotesOf(NotesWith(d, text)) == notes;
  }

  /** Adding a note keeps the memory in normal shape and leaves the voice settings, and so every voice accessor, as they were. */
  lemma NoteKeepsVoice(d: Entries, text: string)
    ensures Get(NotesWith(d, text), "voice", Dict([])) == Get(d, "voice", Dict([]))
    ensures Normal(d) ==> Normal(NotesWith(d, text))
    ensures VoiceIsDict(d) ==>
      VoiceIsDict(NotesWith(d, text)) && VoiceOf(NotesWith(d, text)) == VoiceOf(d)
      && EnabledOf(NotesWith(d, text)) == EnabledOf(d) && NameOf(NotesWith(d, text)) == NameOf(d)
      && ModeOf(NotesWith(d, text)) == ModeOf(d) && FileOf(NotesWith(d, text)) == FileOf(d)
  {
    var list := StrList(NotesOf(d) + [text]);
    KeysDistinct();
    PutGet(d, "notes", list, "voice", Dict([]));
    PutHasKey(d, "notes", list, "notes");
    PutHasKey(d, "notes", list, "voice");
  }
}
