/** The text-side logic of the PrimeSpeech dora node: decoding the
    `VOICE:` directive carried in front of the text, the language check
    applied to configured language codes, the punctuation-only skip test and
    the way per-voice configurations are completed from the node-wide one. */
module Directive {
  import opened Wrappers
  import opened Strings

  /** A configuration or metadata value (Python's str, int, float, bool). */
  datatype Value = Str(s: string) | Int(i: int) | Real(r: real) | Bool(b: bool)

  /** A Python dict with string keys. */
  type Config = map<string, Value>

  /** `d.get(key, default)`. */
  function Get(d: Config, key: string, default: Value): Value {
    if key in d then d[key] else default
  }

  const VoicePrefix: string := "VOICE:"
  const CustomPrefix: string := "VOICE:CUSTOM|"
  const TrainedPrefix: string := "VOICE:TRAINED|"

  /** The voice name used when the configured one is unknown. */
  const FallbackVoice: string := "Doubao"

  /** Language codes a directive may carry through unchanged. */
  const DirectiveLanguages: set<string> := {"zh", "en", "ja", "auto"}

  /** Language codes the synthesis engine accepts, in the order it lists them. */
  const ValidLanguages: seq<string> :=
    ["auto", "auto_yue", "en", "zh", "ja", "yue", "ko", "all_zh", "all_ja", "all_yue", "all_ko"]

  /** Python slicing `s[n:]`, which yields "" instead of failing. */
  function Drop(s: string, n: nat): (r: string)
    ensures n <= |s| ==> r == s[n..]
    ensures n > |s| ==> r == []
  {
    if n <= |s| then s[n..] else []
  }

  /** What one text input asks for once its directive is decoded: the voice
      name, the text to speak and, for cloned voices, the full voice
      configuration the directive describes. */
  datatype Request = Request(voice: string, text: string, custom: Option<Config>)

  /** A directive language is kept when the engine knows it, else "auto". */
  function CoerceLanguage(lang: string): (r: string)
    ensures r in DirectiveLanguages
    ensures lang in DirectiveLanguages ==> r == lang
    ensures lang !in DirectiveLanguages ==> r == "auto"
  {
    if lang in DirectiveLanguages then lang else "auto"
  }

  /** Configuration of a voice trained in Pro mode: its own GPT and SoVITS
      weights plus the reference clip and transcript. */
  function TrainedConfig(gpt: string, sovits: string, ref: string, prompt: string, lang: string): Config {
    map["gpt_weights" := Str(gpt), "sovits_weights" := Str(sovits),
        "reference_audio" := Str(ref), "prompt_text" := Str(prompt),
        "text_lang" := Str(CoerceLanguage(lang)), "prompt_lang" := Str(CoerceLanguage(lang)),
        "speed_factor" := Real(1.1)]
  }

  /** Configuration of a zero-shot cloned voice: the shared Doubao weights
      with the user's reference clip and transcript. */
  function CustomConfig(ref: string, prompt: string, lang: string): Config {
    map["repository" := Str("MoYoYoTech/tone-models"),
        "gpt_weights" := Str("GPT_weights/doubao-mixed.ckpt"),
        "sovits_weights" := Str("SoVITS_weights/doubao-mixed.pth"),
        "reference_audio" := Str(ref), "prompt_text" := Str(prompt),
        "text_lang" := Str(CoerceLanguage(lang)), "prompt_lang" := Str(CoerceLanguage(lang)),
        "speed_factor" := Real(1.1)]
  }

  /** Decodes the directive in front of `raw`. `known` holds the names of
      the built-in voices and `default` is the node's own voice. A trained
      directive needs six `|`-separated fields after its prefix and a custom
      one four, the last field being the text (which may itself contain
      `|`); a malformed directive leaves the whole input, prefix included,
      as the text. A named directive always strips its prefix, but switches
      voice only when the (whitespace-stripped) name is known. */
  function ParsePrompt(raw: string, known: set<string>, default: string): (r: Request)
    ensures !StartsWith(raw, VoicePrefix) ==> r == Request(default, raw, None)
    ensures r.custom.Some? ==> r.voice in {"CUSTOM", "TRAINED"}
    ensures r.custom.None? ==> r.voice in known || r.voice == default
  {
    if !StartsWith(raw, VoicePrefix) then Request(default, raw, None)
    else if StartsWith(raw, TrainedPrefix) then ParseTrained(raw, default)
    else if StartsWith(raw, CustomPrefix) then ParseCustom(raw, default)
    else ParseNamed(raw, known, default)
  }

  function ParseTrained(raw: string, default: string): Request
    requires StartsWith(raw, TrainedPrefix)
  {
    var parts := Split(raw[|TrainedPrefix|..], '|', 5);
    if |parts| == 6 then
      Request("TRAINED", parts[5], Some(TrainedConfig(parts[0], parts[1], parts[2], parts[3], parts[4])))
    else Request(default, raw, None)
  }

  function ParseCustom(raw: string, default: string): Request
    requires StartsWith(raw, CustomPrefix)
  {
    var parts := Split(raw[|CustomPrefix|..], '|', 3);
    if |parts| == 4 then
      Request("CUSTOM", parts[3], Some(CustomConfig(parts[0], parts[1], parts[2])))
    else Request(default, raw, None)
  }

  function ParseNamed(raw: string, known: set<string>, default: string): Request
  {
    var parts := Split(raw, '|', 1);
    if |parts| == 2 then
      var name := PyStrip(Drop(parts[0], |VoicePrefix|));
      Request(if name in known then name else default, parts[1], None)
    else Request(default, raw, None)
  }

  /** Whatever the directive, the text handed to synthesis is a suffix of
      the input: decoding only ever removes a leading part. */
  lemma ParsedTextIsSuffix(raw: string, known: set<string>, default: string)
    ensures IsSuffix(ParsePrompt(raw, known, default).text, raw)
  {
    var r := ParsePrompt(raw, known, default);
    assert raw[|raw| - |raw|..] == raw;
    if !StartsWith(raw, VoicePrefix) {
    } else if StartsWith(raw, TrainedPrefix) {
      var rest := raw[|TrainedPrefix|..];
      var parts := Split(rest, '|', 5);
      if |parts| == 6 {
        assert r.text == Last(parts);
        SplitTailIsSuffix(rest, '|', 5);
        SuffixOfSuffix(Last(parts), rest, raw);
      }
    } else if StartsWith(raw, CustomPrefix) {
      var rest := raw[|CustomPrefix|..];
      var parts := Split(rest, '|', 3);
      if |parts| == 4 {
        assert r.text == Last(parts);
        SplitTailIsSuffix(rest, '|', 3);
        SuffixOfSuffix(Last(parts), rest, raw);
      }
    } else {
      var parts := Split(raw, '|', 1);
      if |parts| == 2 {
        assert r.text == Last(parts);
        SplitTailIsSuffix(raw, '|', 1);
      }
    }
  }

  lemma SuffixOfSuffix(a: string, b: string, s: string)
    requires IsSuffix(a, b) && IsSuffix(b, s)
    ensures IsSuffix(a, s)
  {
    assert s[|s| - |b|..][|b| - |a|..] == s[|s| - |a|..];
  }

  /** The last piece of a split is a suffix of the input. */
  lemma {:induction false} SplitTailIsSuffix(s: string, c: char, n: nat)
    ensures IsSuffix(Last(Split(s, c, n)), s)
    decreases n
  {
    if n != 0 && c in s {
      var i := IndexOf(s, c);
      var t := s[i + 1..];
      var rest := Split(t, c, n - 1);
      var parts := Split(s, c, n);
      assert parts == [s[..i]] + rest;
      assert Last(parts) == Last(rest) by {
        assert parts[|parts| - 1] == rest[|rest| - 1];
      }
      SplitTailIsSuffix(t, c, n - 1);
      assert IsSuffix(t, s);
      SuffixOfSuffix(Last(rest), t, s);
    } else {
      assert s[|s| - |s|..] == s;
    }
  }

  function Last(parts: seq<string>): string
    requires |parts| > 0
  {
    parts[|parts| - 1]
  }

  predicate IsSuffix(a: string, s: string) {
    |a| <= |s| && a == s[|s| - |a|..]
  }

  /** Result of checking a configured language code: the code itself, which
      is always passed on unchanged, and the error lines logged about it. */
  datatype LanguageCheck = LanguageCheck(code: string, errors: seq<string>)

  /** The comma-separated listing of `ValidLanguages` used in messages. */
  function ListLanguages(langs: seq<string>): string {
    if |langs| == 0 then ""
    else if |langs| == 1 then langs[0]
    else langs[0] + ", " + ListLanguages(langs[1..])
  }

  /** The hint logged for a common mistake, compared case-insensitively.
      Only ASCII letters lower-case onto "cn", "chinese" or "english", so
      ASCII lower-casing decides these comparisons exactly as Python's
      `str.lower` does. */
  function LanguageHint(code: string): Option<string> {
    var lower := AsciiLower(code);
    if lower == "cn" then Some("Did you mean 'zh' for Chinese? Use 'zh' not 'cn'!")
    else if lower == "chinese" then Some("Use 'zh' for Chinese, not 'chinese'!")
    else if lower == "english" then Some("Use 'en' for English, not 'english'!")
    else None
  }

  /** Checks a language code read from the environment: a valid code is
      returned silently; an invalid one is returned too (synthesis will
      reject it later) after an error line, an optional hint, the list of
      valid codes and a warning naming the parameter. */
  function ValidateLanguageConfig(code: string, param: string): (r: LanguageCheck)
    ensures r.code == code
  {
    if code in ValidLanguages then LanguageCheck(code, [])
    else
      var hint := match LanguageHint(code) case Some(h) => [h] case None => [];
      LanguageCheck(code,
        ["INVALID " + param + ": '" + code + "' is NOT a valid language!"] + hint
        + ["Valid languages: " + ListLanguages(ValidLanguages),
           "TTS will fail until you fix " + param + "!"])
  }

  /** Only an invalid code is reported: by an error line naming the code
      and the parameter, the hint if any, and a closing warning. */
  lemma LanguageCheckErrors(code: string, param: string)
    ensures var r := ValidateLanguageConfig(code, param);
      (r.errors == [] <==> code in ValidLanguages)
      && (code !in ValidLanguages ==>
        |r.errors| == (if LanguageHint(code).Some? then 4 else 3)
        && r.errors[0] == "INVALID " + param + ": '" + code + "' is NOT a valid language!"
        && r.errors[|r.errors| - 1] == "TTS will fail until you fix " + param + "!")
  {
  }

  /** The hint, when there is one, follows the error line. */
  lemma HintComesSecond(code: string, param: string)
    requires code !in ValidLanguages && LanguageHint(code).Some?
    ensures |ValidateLanguageConfig(code, param).errors| == 4
    ensures ValidateLanguageConfig(code, param).errors[1] == LanguageHint(code).value
  {
  }

  /** A typical mistake gets its hint: "CN" is invalid, and the hint, which
      `HintComesSecond` places after the error line, points at "zh". */
  lemma CnGetsHint()
    ensures "CN" !in ValidLanguages
    ensures LanguageHint("CN") == Some("Did you mean 'zh' for Chinese? Use 'zh' not 'cn'!")
  {
    assert AsciiLower("CN") == "cn";
  }

  /** Punctuation and whitespace that on their own make a segment silent:
      CJK and ASCII sentence marks, the ASCII double quote, CJK brackets,
      newline, carriage return, tab and space. The set holds no apostrophe
      and no typographic quotes. */
  const SkipChars: set<char> := {
    '\U{3002}', '\U{FF01}', '\U{FF1F}', '.', '!', '?', ',', '\U{FF0C}', '\U{3001}',
    '\U{FF1B}', '\U{FF1A}', '"', '\U{FF08}', '\U{FF09}', '\U{3010}', '\U{3011}',
    '\U{300A}', '\U{300B}', '\n', '\r', '\t', ' '}

  /** The node's skip test: the stripped text is empty or made only of
      `SkipChars`. */
  predicate IsSkippable(text: string) {
    var stripped := PyStrip(text);
    stripped == [] || forall k :: 0 <= k < |stripped| ==> stripped[k] in SkipChars
  }

  /** A segment made only of skippable characters is skipped. */
  lemma AllSkipCharsSkipped(text: string)
    requires forall k :: 0 <= k < |text| ==> text[k] in SkipChars
    ensures IsSkippable(text)
  {
    TrimKeepsMembers(text, IsPyWhitespace, SkipChars);
  }

  /** A skipped segment holds nothing but whitespace and skippable
      punctuation. */
  lemma SkippedHasNoWords(text: string)
    requires IsSkippable(text)
    ensures forall k :: 0 <= k < |text| ==> IsPyWhitespace(text[k]) || text[k] in SkipChars
  {
    var a := TrimStart(text, IsPyWhitespace);
    var b := TrimEnd(a, IsPyWhitespace);
    var off := |text| - |a|;
    assert PyStrip(text) == b;
    forall k | 0 <= k < |text|
      ensures IsPyWhitespace(text[k]) || text[k] in SkipChars
    {
      if off <= k < off + |b| {
        assert text[k] == a[k - off] == b[k - off];
      } else if k >= off + |b| {
        assert text[k] == a[k - off];
      }
    }
  }

  /** Whitespace that is not in the skip set counts when it lies between
      marks: full stops around an ideographic space are synthesised. */
  lemma InnerIdeographicSpaceNotSkipped()
    ensures !IsSkippable("\U{3002}\U{3000}\U{3002}")
  {
    UnskippableAt("\U{3002}\U{3000}\U{3002}", 1);
  }

  /** A segment whose first and last characters are not whitespace, and
      which holds a character outside the skip set, is synthesised. */
  lemma UnskippableAt(s: string, i: nat)
    requires s != [] && !IsPyWhitespace(s[0]) && !IsPyWhitespace(s[|s| - 1])
    requires i < |s| && s[i] !in SkipChars
    ensures !IsSkippable(s)
  {
    var a := TrimStart(s, IsPyWhitespace);
    assert |a| == |s|;
    assert a == s;
    assert PyStrip(s)[i] !in SkipChars;
  }

  /** The ASCII apostrophe is not in the skip set: a segment holding only
      quotes of that kind is sent to synthesis. */
  lemma ApostropheNotSkipped()
    ensures !IsSkippable("''")
  {
    UnskippableAt("''", 0);
  }

  /** A segment of CJK full stops and spaces is skipped. */
  lemma PunctuationSkipped()
    ensures IsSkippable(" \U{3002}\U{3002} ")
  {
    AllSkipCharsSkipped(" \U{3002}\U{3002} ");
  }

  /** Keys the node-wide configuration lends to a voice configuration that
      lacks them, in the order the node visits them. */
  const OverrideKeys: seq<string> :=
    ["text_lang", "prompt_lang", "top_k", "top_p", "temperature",
     "speed_factor", "batch_size", "seed", "text_split_method",
     "split_bucket", "return_fragment", "use_gpu", "device",
     "sample_rate", "fragment_interval"]

  /** `voice` completed from `global` over the keys `keys`: every entry of
      `voice` stays, and each listed key missing from it is taken from
      `global` if there. */
  function CompletedOver(voice: Config, global: Config, keys: seq<string>): Config {
    map k | k in voice.Keys + (set j | j in keys && j in global) ::
      if k in voice then voice[k] else global[k]
  }

  /** Completing over one more key adds it from `global` when neither
      the voice nor an earlier key supplied it. */
  lemma CompletedOverSnoc(voice: Config, global: Config, keys: seq<string>, key: string)
    ensures var r := CompletedOver(voice, global, keys);
      CompletedOver(voice, global, keys + [key])
      == if key in global && key !in r then r[key := global[key]] else r
  {
    var r := CompletedOver(voice, global, keys);
    var r' := CompletedOver(voice, global, keys + [key]);
    assert forall j :: j in keys + [key] <==> j in keys || j == key;
    if key in global && key !in r {
      assert r'.Keys == r.Keys + {key};
    } else {
      assert r'.Keys == r.Keys;
    }
  }

  /** The completion the node applies before building an engine. */
  function Completed(voice: Config, global: Config): Config {
    CompletedOver(voice, global, OverrideKeys)
  }

  /** Completes a voice configuration key by key, as the node's loop does. */
  method MergeGlobalDefaults(voice: Config, global: Config) returns (r: Config)
    ensures r == Completed(voice, global)
  {
    r := voice;
    var i := 0;
    while i < |OverrideKeys|
      invariant 0 <= i <= |OverrideKeys|
      invariant r == CompletedOver(voice, global, OverrideKeys[..i])
    {
      var key := OverrideKeys[i];
      assert OverrideKeys[..i + 1] == OverrideKeys[..i] + [key];
      CompletedOverSnoc(voice, global, OverrideKeys[..i], key);
      if key in global && key !in r {
        r := r[key := global[key]];
      }
      i := i + 1;
    }
    assert OverrideKeys[..i] == OverrideKeys;
  }

  /** Completing never overrides what the voice configuration sets, only
      adds override keys the node-wide configuration has. */
  lemma CompletedKeepsVoice(voice: Config, global: Config)
    ensures var c := Completed(voice, global);
      (forall k :: k in voice ==> k in c && c[k] == voice[k])
      && (forall k :: k in c && k !in voice ==> k in OverrideKeys && k in global && c[k] == global[k])
      && (forall k :: k in OverrideKeys && k in global ==> k in c)
  {
  }
}
