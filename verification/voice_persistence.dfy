/** Persistence of cloned voices: the JSON configuration file listing them,
    the per-voice directories holding their reference clips, identifier
    generation and path resolution. The file system is the state of a
    `VoiceStore` object; disk write failures are not modelled. */
module VoicePersistence {
  import opened Wrappers
  import opened Strings
  import opened VoiceData

  /** What reading the configuration file yields: no file, a file that
      cannot be read or parsed, or a parsed list with its version tag. */
  datatype ConfigFile = Missing | Unreadable | Stored(version: string, voices: seq<Voice>)

  const ConfigVersion: string := "1.0"

  /** The voices a load returns; a missing or unreadable file yields none. */
  function Loaded(file: ConfigFile): seq<Voice> {
    if file.Stored? then file.voices else []
  }

  /** The error of adding a voice whose identifier is taken. */
  function AlreadyExists(id: string): string {
    "Voice with ID '" + id + "' already exists"
  }

  predicate HasId(vs: seq<Voice>, id: string) {
    exists k :: 0 <= k < |vs| && vs[k].id == id
  }

  /** Position of the first voice with identifier `id` (`iter().find`). */
  function FirstIndex(vs: seq<Voice>, id: string): (r: Option<nat>)
    ensures r.None? <==> !HasId(vs, id)
    ensures r.Some? ==> (r.value < |vs| && vs[r.value].id == id
                         && forall k :: 0 <= k < r.value ==> vs[k].id != id)
  {
    if vs == [] then None
    else if vs[0].id == id then Some(0)
    else match FirstIndex(vs[1..], id)
      case None => None
      case Some(i) => Some(i + 1)
  }

  /** `retain(|v| v.id != id)`: the voices with another identifier, in
      their original order. */
  function Without(vs: seq<Voice>, id: string): (r: seq<Voice>)
    ensures |r| <= |vs|
  {
    if vs == [] then []
    else if vs[0].id == id then Without(vs[1..], id)
    else [vs[0]] + Without(vs[1..], id)
  }

  /** The voices kept are exactly those with another identifier, and the
      list shrinks exactly when the identifier was present. */
  lemma {:induction false} WithoutMembers(vs: seq<Voice>, id: string)
    ensures !HasId(Without(vs, id), id)
    ensures forall v :: v in Without(vs, id) <==> v in vs && v.id != id
    ensures |Without(vs, id)| == |vs| <==> !HasId(vs, id)
  {
    if vs != [] {
      WithoutMembers(vs[1..], id);
      assert forall v :: v in vs <==> v == vs[0] || v in vs[1..];
      assert HasId(vs, id) <==> vs[0].id == id || HasId(vs[1..], id) by {
        if HasId(vs[1..], id) {
          var k :| 0 <= k < |vs[1..]| && vs[1..][k].id == id;
          assert vs[k + 1].id == id;
        }
        if HasId(vs, id) && vs[0].id != id {
          var k :| 0 <= k < |vs| && vs[k].id == id;
          assert vs[1..][k - 1].id == id;
        }
      }
    }
  }

  /** Removing an identifier that is absent changes nothing. */
  lemma {:induction false} WithoutAbsent(vs: seq<Voice>, id: string)
    requires !HasId(vs, id)
    ensures Without(vs, id) == vs
  {
    if vs != [] {
      WithoutAbsent(vs[1..], id);
      assert vs == [vs[0]] + vs[1..];
    }
  }

  /** Adding a voice and then removing its identifier restores the list. */
  lemma AddThenRemove(vs: seq<Voice>, v: Voice)
    requires !HasId(vs, v.id)
    ensures Without(vs + [v], v.id) == vs
  {
    WithoutAppend(vs, [v], v.id);
    WithoutAbsent(vs, v.id);
  }

  lemma {:induction false} WithoutAppend(a: seq<Voice>, b: seq<Voice>, id: string)
    ensures Without(a + b, id) == Without(a, id) + Without(b, id)
  {
    if a != [] {
      assert (a + b)[1..] == a[1..] + b;
      WithoutAppend(a[1..], b, id);
    } else {
      assert a + b == b;
    }
  }

  /** Rust's `char::is_alphanumeric`, restricted to the scripts a voice
      name is expected in: ASCII letters and digits, CJK ideographs (the
      unified block and extension A), kana and Hangul syllables. */
  predicate IsAlphanumeric(c: char) {
    ('a' <= c <= 'z') || ('A' <= c <= 'Z') || ('0' <= c <= '9')
    || ('\U{4E00}' <= c <= '\U{9FFF}') || ('\U{3400}' <= c <= '\U{4DBF}')
    || ('\U{3041}' <= c <= '\U{3096}') || ('\U{30A1}' <= c <= '\U{30FA}')
    || ('\U{AC00}' <= c <= '\U{D7A3}')
  }

  /** The per-character sanitising map of identifier generation. */
  function SanitizeChar(c: char): char {
    if IsAlphanumeric(c) then AsciiLowerChar(c) else '_'
  }

  function Sanitize(name: string): (r: string)
    ensures |r| == |name|
    ensures forall k :: 0 <= k < |name| ==> r[k] == SanitizeChar(name[k])
  {
    seq(|name|, k requires 0 <= k < |name| => SanitizeChar(name[k]))
  }

  /** Identifier of a new cloned voice: the sanitised name (or
      "custom_voice" for an empty name), an underscore and the creation time
      in Unix seconds. */
  function GenerateVoiceId(name: string, now: nat): (id: string)
    ensures name != [] ==> id == Sanitize(name) + "_" + NatToDecimal(now)
    ensures name == [] ==> id == "custom_voice_" + NatToDecimal(now)
    ensures forall k :: 0 <= k < |id| ==> id[k] != ' ' && id[k] != '|' && id[k] != '/'
  {
    var base := if name == [] then "custom_voice" else Sanitize(name);
    base + "_" + NatToDecimal(now)
  }

  /** A Latin name is lower-cased and its spaces become underscores. */
  lemma LatinNameId(now: nat)
    ensures StartsWith(GenerateVoiceId("My Custom Voice", now), "my_custom_voice_")
  {
    SanitizeLatin();
    PrefixOfAppend("my_custom_voice_", NatToDecimal(now));
  }

  lemma SanitizeLatin()
    ensures Sanitize("My Custom Voice") == "my_custom_voice"
  {
    assert "My Custom Voice" == "My " + ("Custom " + "Voice");
    SanitizeAppend("My ", "Custom " + "Voice");
    SanitizeAppend("Custom ", "Voice");
    SanitizeWords();
  }

  lemma SanitizeWords()
    ensures Sanitize("My ") == "my_" && Sanitize("Custom ") == "custom_" && Sanitize("Voice") == "voice"
  {
    assert Sanitize("My ") == "my_";
    assert Sanitize("Custom ") == "custom_";
  }

  lemma PrefixOfAppend(a: string, b: string)
    ensures StartsWith(a + b, a)
  {
    assert (a + b)[..|a|] == a;
  }

  lemma SanitizeAppend(a: string, b: string)
    ensures Sanitize(a + b) == Sanitize(a) + Sanitize(b)
  {
  }

  /** Chinese characters are alphanumeric and survive in the identifier:
      a Chinese name does not turn into underscores. */
  lemma ChineseNameKeepsCharacters(now: nat)
    ensures var id := GenerateVoiceId("\U{6211}\U{7684}\U{58F0}\U{97F3}", now);
      StartsWith(id, "\U{6211}\U{7684}\U{58F0}\U{97F3}_") && !StartsWith(id, "____")
  {
    var name := "\U{6211}\U{7684}\U{58F0}\U{97F3}";
    assert Sanitize(name) == name;
    var id := GenerateVoiceId(name, now);
    assert id[..5] == name + "_";
    assert id[0] != '_';
  }

  /** Two different names of CJK ideographs, of the same length, created in
      the same second, get different identifiers: the sanitising keeps
      every ideograph, where turning them into underscores would give both
      the same identifier. */
  lemma CjkNamesGetDistinctIds(a: string, b: string, now: nat)
    requires |a| == |b| && a != b
    requires forall k :: 0 <= k < |a| ==> '\U{4E00}' <= a[k] <= '\U{9FFF}' && '\U{4E00}' <= b[k] <= '\U{9FFF}'
    ensures GenerateVoiceId(a, now) != GenerateVoiceId(b, now)
  {
    var k :| 0 <= k < |a| && a[k] != b[k];
    var ia, ib := GenerateVoiceId(a, now), GenerateVoiceId(b, now);
    assert ia[k] == Sanitize(a)[k] == a[k];
    assert ib[k] == Sanitize(b)[k] == b[k];
  }

  /** `~/.dora/primespeech/custom_voices`, with "." standing in for an
      unknown home directory. */
  function CustomVoicesDir(home: Option<string>): string {
    JoinPath(JoinPath(JoinPath(home.GetOr("."), ".dora"), "primespeech"), "custom_voices")
  }

  /** The relative location of a voice's reference clip. */
  function RelativeRefPath(voiceId: string): string {
    voiceId + "/ref.wav"
  }

  /** Absolute reference clip of a cloned voice; none for other voices. */
  function GetReferenceAudioPath(v: Voice, voicesDir: string): (r: Option<string>)
    ensures r.Some? <==> v.IsCustom() && v.referenceAudioPath.Some?
    ensures r.Some? ==> r.value == JoinPath(voicesDir, v.referenceAudioPath.value)
  {
    if !v.IsCustom() then None
    else match v.referenceAudioPath
      case None => None
      case Some(rel) => Some(JoinPath(voicesDir, rel))
  }

  /** A duration as `f32` arithmetic yields it: a finite value, or the
      infinity or NaN of a division by a zero rate. */
  datatype Seconds = Finite(value: real) | Infinity | NaN

  /** Header facts read from a WAV file. */
  datatype WavSpec = WavSpec(sampleRate: nat, channels: nat, bitsPerSample: nat, numSamples: nat)

  datatype AudioInfo = AudioInfo(duration: Seconds, sampleRate: nat, channels: nat,
                                 bitsPerSample: nat, warnings: seq<string>)

  /** What opening a path as WAV gives: no file, an open error, or a header. */
  datatype WavFile = NoFile | OpenFailed(reason: string) | Wav(spec: WavSpec)

  function DurationOf(spec: WavSpec): Seconds {
    var denom := spec.sampleRate * spec.channels;
    if denom > 0 then Finite(spec.numSamples as real / denom as real)
    else if spec.numSamples > 0 then Infinity
    else NaN
  }

  /** Reads a WAV header and computes its duration; a clip outside the
      recommended 3-10 s range is accepted with a warning, never refused.
      `fmt` renders a finite duration with one decimal (`{:.1}`); an
      infinite one is written `inf`. */
  function ValidateAudioFile(file: WavFile, fmt: real -> string): (r: Result<AudioInfo, string>)
    ensures file.NoFile? ==> r == Err("File does not exist")
    ensures file.OpenFailed? ==> r == Err("Failed to open WAV file: " + file.reason)
    ensures file.Wav? ==> (r.Ok? && r.value.duration == DurationOf(file.spec)
                           && r.value.sampleRate == file.spec.sampleRate
                           && (r.value.warnings == [] <==>
                                 (r.value.duration.Finite? ==> 3.0 <= r.value.duration.value <= 10.0)
                                 && !r.value.duration.Infinity?))
    ensures r.Ok? && r.value.duration.Finite? && r.value.duration.value < 3.0 ==>
              r.value.warnings == ["Audio is shorter than recommended (" + fmt(r.value.duration.value) + "s < 3s)"]
    ensures r.Ok? && r.value.duration.Finite? && r.value.duration.value > 10.0 ==>
              r.value.warnings == ["Audio is longer than recommended (" + fmt(r.value.duration.value) + "s > 10s)"]
    ensures r.Ok? && r.value.duration.Infinity? ==>
              r.value.warnings == ["Audio is longer than recommended (infs > 10s)"]
  {
    match file
    case NoFile => Err("File does not exist")
    case OpenFailed(reason) => Err("Failed to open WAV file: " + reason)
    case Wav(spec) =>
      var d := DurationOf(spec);
      var shown := if d.Finite? then fmt(d.value) else "inf";
      var short := if d.Finite? && d.value < 3.0 then ["Audio is shorter than recommended (" + shown + "s < 3s)"] else [];
      assert "Audio is longer than recommended (" + "inf" + "s > 10s)" == "Audio is longer than recommended (infs > 10s)";
      var long := if d.Infinity? || (d.Finite? && d.value > 10.0) then ["Audio is longer than recommended (" + shown + "s > 10s)"] else [];
      Ok(AudioInfo(d, spec.sampleRate, spec.channels, spec.bitsPerSample, short + long))
  }

  /** The file system's refusals during a copy of a reference clip, if
      any: creating the store's directories, creating the voice's own
      directory, copying the file. */
  datatype CopyFaults = CopyFaults(setup: Option<string>, voiceDir: Option<string>, copy: Option<string>)

  /** The voice directory is in place for the copy: the store's
      directories were created and the voice's directory existed or was
      created. */
  predicate DirReady(f: CopyFaults, dirExists: bool) {
    f.setup.None? && (dirExists || f.voiceDir.None?)
  }

  /** The error a copy ends with: the first step that fails, in the order
      directories, voice directory (only created when missing), file. */
  function CopyError(f: CopyFaults, dirExists: bool): (e: Option<string>)
    ensures e.None? <==> DirReady(f, dirExists) && f.copy.None?
    ensures f.setup.Some? ==> e == Some("Failed to create directories: " + f.setup.value)
    ensures f.setup.None? && !dirExists && f.voiceDir.Some? ==>
              e == Some("Failed to create voice directory: " + f.voiceDir.value)
    ensures DirReady(f, dirExists) && f.copy.Some? ==> e == Some("Failed to copy audio file: " + f.copy.value)
  {
    if f.setup.Some? then Some("Failed to create directories: " + f.setup.value)
    else if !dirExists && f.voiceDir.Some? then Some("Failed to create voice directory: " + f.voiceDir.value)
    else if f.copy.Some? then Some("Failed to copy audio file: " + f.copy.value)
    else None
  }

  /** The custom-voice store on disk: the configuration file and the set of
      voice identifiers that have a directory under the custom-voices
      directory. */
  class VoiceStore {
    var file: ConfigFile
    var voiceDirs: set<string>

    constructor(file: ConfigFile, voiceDirs: set<string>)
      ensures this.file == file && this.voiceDirs == voiceDirs
    {
      this.file := file;
      this.voiceDirs := voiceDirs;
    }

    function Voices(): seq<Voice>
      reads this`file
    {
      Loaded(file)
    }

    /** `iter().any(|v| v.id == id)`. */
    static method AnyWithId(vs: seq<Voice>, id: string) returns (found: bool)
      ensures found <==> HasId(vs, id)
    {
      var i := 0;
      while i < |vs|
        invariant 0 <= i <= |vs|
        invariant forall k :: 0 <= k < i ==> vs[k].id != id
      {
        if vs[i].id == id {
          return true;
        }
        i := i + 1;
      }
      return false;
    }

    /** `retain(|v| v.id != id)` on a loaded list. */
    static method Retain(vs: seq<Voice>, id: string) returns (kept: seq<Voice>)
      ensures kept == Without(vs, id)
    {
      kept := [];
      var i := 0;
      while i < |vs|
        invariant 0 <= i <= |vs|
        invariant kept == Without(vs[..i], id)
      {
        WithoutSnoc(vs, i, id);
        if vs[i].id != id {
          kept := kept + [vs[i]];
        }
        i := i + 1;
      }
      assert vs[..i] == vs;
    }

    /** `iter_mut().find(|v| v.id == id)`, as a position. */
    static method Find(vs: seq<Voice>, id: string) returns (r: Option<nat>)
      ensures r == FirstIndex(vs, id)
    {
      var i := 0;
      while i < |vs|
        invariant 0 <= i <= |vs|
        invariant forall k :: 0 <= k < i ==> vs[k].id != id
      {
        if vs[i].id == id {
          FirstIndexAt(vs, id, i);
          return Some(i);
        }
        i := i + 1;
      }
      assert !HasId(vs, id);
      r := None;
    }

    /** Adds a voice unless its identifier is taken. A missing or unreadable
        file counts as empty, so the rewrite drops whatever it held. */
    method Add(v: Voice) returns (r: Result<(), string>)
      modifies this
      ensures HasId(old(Voices()), v.id) ==>
        r == Err(AlreadyExists(v.id)) && file == old(file)
      ensures !HasId(old(Voices()), v.id) ==>
        r == Ok(()) && file == Stored(ConfigVersion, old(Voices()) + [v])
      ensures voiceDirs == old(voiceDirs)
    {
      var voices := Loaded(file);
      var taken := AnyWithId(voices, v.id);
      if taken {
        return Err(AlreadyExists(v.id));
      }
      file := Stored(ConfigVersion, voices + [v]);
      r := Ok(());
    }

    /** Removes every voice with the identifier and its directory; an
        identifier that matches nothing is an error and changes nothing.
        `removeError` is the file system's refusal to delete an existing
        voice directory, if any: the configuration is then not rewritten,
        so the voice stays stored. */
    method Remove(id: string, removeError: Option<string>) returns (r: Result<(), string>)
      modifies this
      ensures !HasId(old(Voices()), id) ==>
        r == Err("Voice with ID '" + id + "' not found") && file == old(file) && voiceDirs == old(voiceDirs)
      ensures HasId(old(Voices()), id) && id in old(voiceDirs) && removeError.Some? ==>
        r == Err("Failed to delete voice directory: " + removeError.value)
        && file == old(file) && voiceDirs == old(voiceDirs)
      ensures HasId(old(Voices()), id) && (id !in old(voiceDirs) || removeError.None?) ==>
        r == Ok(()) && file == Stored(ConfigVersion, Without(old(Voices()), id))
        && voiceDirs == old(voiceDirs) - {id}
    {
      var voices := Loaded(file);
      var kept := Retain(voices, id);
      WithoutMembers(voices, id);
      if |kept| == |voices| {
        return Err("Voice with ID '" + id + "' not found");
      }
      if id in voiceDirs {
        if removeError.Some? {
          return Err("Failed to delete voice directory: " + removeError.value);
        }
        voiceDirs := voiceDirs - {id};
      }
      file := Stored(ConfigVersion, kept);
      r := Ok(());
    }

    /** Replaces the first voice with the same identifier. */
    method Update(v: Voice) returns (r: Result<(), string>)
      modifies this
      ensures FirstIndex(old(Voices()), v.id).None? ==>
        r == Err("Voice with ID '" + v.id + "' not found") && file == old(file)
      ensures FirstIndex(old(Voices()), v.id).Some? ==>
        r == Ok(()) && file == Stored(ConfigVersion, old(Voices())[FirstIndex(old(Voices()), v.id).value := v])
      ensures voiceDirs == old(voiceDirs)
    {
      var voices := Loaded(file);
      var at := Find(voices, v.id);
      match at {
        case None => return Err("Voice with ID '" + v.id + "' not found");
        case Some(i) =>
          file := Stored(ConfigVersion, voices[i := v]);
          r := Ok(());
      }
    }

    /** Renames the first voice with the identifier. */
    method Rename(id: string, newName: string) returns (r: Result<(), string>)
      modifies this
      ensures FirstIndex(old(Voices()), id).None? ==>
        r == Err("Voice with ID '" + id + "' not found") && file == old(file)
      ensures FirstIndex(old(Voices()), id).Some? ==>
        var i := FirstIndex(old(Voices()), id).value;
        r == Ok(()) && file == Stored(ConfigVersion, old(Voices())[i := old(Voices())[i].(name := newName)])
      ensures voiceDirs == old(voiceDirs)
    {
      var voices := Loaded(file);
      var at := Find(voices, id);
      match at {
        case None => return Err("Voice with ID '" + id + "' not found");
        case Some(i) =>
          file := Stored(ConfigVersion, voices[i := voices[i].(name := newName)]);
          r := Ok(());
      }
    }

    /** Copies a clip into the voice's directory (created first when
        missing) and returns its path relative to the custom-voices
        directory. `faults` are the operating system's refusals, if any. */
    method CopyReferenceAudio(voiceId: string, faults: CopyFaults) returns (r: Result<string, string>)
      modifies this
      ensures file == old(file)
      ensures voiceDirs == if DirReady(faults, voiceId in old(voiceDirs)) then old(voiceDirs) + {voiceId}
                           else old(voiceDirs)
      ensures var e := CopyError(faults, voiceId in old(voiceDirs));
        r == if e.Some? then Err(e.value) else Ok(RelativeRefPath(voiceId))
    {
      if faults.setup.Some? {
        return Err("Failed to create directories: " + faults.setup.value);
      }
      if voiceId !in voiceDirs {
        if faults.voiceDir.Some? {
          return Err("Failed to create voice directory: " + faults.voiceDir.value);
        }
        voiceDirs := voiceDirs + {voiceId};
      }
      if faults.copy.Some? {
        return Err("Failed to copy audio file: " + faults.copy.value);
      }
      r := Ok(RelativeRefPath(voiceId));
    }
  }

  lemma WithoutSnoc(vs: seq<Voice>, i: nat, id: string)
    requires i < |vs|
    ensures Without(vs[..i + 1], id) == Without(vs[..i], id) + (if vs[i].id != id then [vs[i]] else [])
  {
    assert vs[..i + 1] == vs[..i] + [vs[i]];
    WithoutAppend(vs[..i], [vs[i]], id);
  }

  lemma FirstIndexAt(vs: seq<Voice>, id: string, i: nat)
    requires i < |vs| && vs[i].id == id
    requires forall k :: 0 <= k < i ==> vs[k].id != id
    ensures FirstIndex(vs, id) == Some(i)
  {
    var r := FirstIndex(vs, id);
    assert r.Some?;
    if r.value < i {
    } else if r.value > i {
    }
  }

  /** A store whose file cannot be read loses every earlier voice when one
      is added: the rewritten file holds only the new voice. */
  lemma AddToUnreadableKeepsOnlyNew(v: Voice)
    ensures !HasId(Loaded(Unreadable), v.id)
    ensures Loaded(Stored(ConfigVersion, Loaded(Unreadable) + [v])) == [v]
  {
  }
}
