/** How the TTS screen turns the selected voice and the typed text into the
    prompt sent to the PrimeSpeech node, and the proof that the node's
    directive decoder recovers the voice, its configuration and the text.
    Also the shortened copy of the prompt the screen logs before sending. */
module PromptEncoder {
  import opened Wrappers
  import opened Strings
  import opened VoiceData
  import opened Directive
  import VoicePersistence

  /** The voice used when the selector has no selection. */
  const DefaultSelection: string := "Luo Xiang"

  /** Prompt for a voice trained in Pro mode. */
  function TrainedPrompt(gpt: string, sovits: string, ref: string, promptText: string,
                         lang: string, text: string): string {
    TrainedPrefix + Join([gpt, sovits, ref, promptText, lang, text], '|')
  }

  /** Prompt for a zero-shot cloned voice. */
  function CustomPrompt(ref: string, promptText: string, lang: string, text: string): string {
    CustomPrefix + Join([ref, promptText, lang, text], '|')
  }

  /** Prompt naming a voice. */
  function NamedPrompt(voiceId: string, text: string): string {
    VoicePrefix + voiceId + "|" + text
  }

  /** What the screen decides to send for the selected voice: a voice by
      name, a trained voice's weights, clip, transcript and language, or a
      cloned voice's clip, transcript and language. */
  datatype Plan =
    | NamedPlan(voiceId: string)
    | TrainedPlan(gpt: string, sovits: string, ref: string, promptText: string, lang: string)
    | CustomPlan(ref: string, promptText: string, lang: string)

  /** The plan for the voice `voiceId`, whose record (if the selector knows
      it) is `info`. A trained voice missing any of its two weight files,
      clip or transcript, or a cloned voice missing its clip or transcript,
      falls back to Doubao. A cloned voice's clip is sent as an absolute
      path under `voicesDir`. */
  function PlanFor(info: Option<Voice>, voiceId: string, voicesDir: string): Plan {
    match info
    case None => NamedPlan(voiceId)
    case Some(v) =>
      if v.source == Trained then
        if v.gptWeights.Some? && v.sovitsWeights.Some? && v.referenceAudioPath.Some? && v.promptText.Some? then
          TrainedPlan(v.gptWeights.value, v.sovitsWeights.value, v.referenceAudioPath.value,
                      v.promptText.value, v.language)
        else NamedPlan("Doubao")
      else if v.source == Custom then
        if v.referenceAudioPath.Some? && v.promptText.Some? then
          var path := VoicePersistence.GetReferenceAudioPath(v, voicesDir).GetOr(v.referenceAudioPath.value);
          CustomPlan(path, v.promptText.value, v.language)
        else NamedPlan("Doubao")
      else NamedPlan(voiceId)
  }

  /** The prompt text of a plan. */
  function Render(plan: Plan, text: string): string {
    match plan
    case NamedPlan(id) => NamedPrompt(id, text)
    case TrainedPlan(gpt, sovits, ref, promptText, lang) => TrainedPrompt(gpt, sovits, ref, promptText, lang, text)
    case CustomPlan(ref, promptText, lang) => CustomPrompt(ref, promptText, lang, text)
  }

  /** The prompt for `text` spoken by the voice `voiceId`. */
  function EncodePrompt(info: Option<Voice>, voiceId: string, text: string, voicesDir: string): string {
    Render(PlanFor(info, voiceId, voicesDir), text)
  }

  predicate NoPipe(s: string) {
    '|' !in s
  }

  lemma StartsWithConcat(a: string, b: string)
    ensures StartsWith(a + b, a)
  {
    assert (a + b)[..|a|] == a;
  }

  /** A trained voice's prompt decodes to its weights, clip, transcript and
      (coerced) language, and to exactly the typed text, which may contain
      `|`. */
  lemma TrainedRoundTrip(gpt: string, sovits: string, ref: string, promptText: string,
                         lang: string, text: string, known: set<string>, default: string)
    requires NoPipe(gpt) && NoPipe(sovits) && NoPipe(ref) && NoPipe(promptText) && NoPipe(lang)
    ensures ParsePrompt(TrainedPrompt(gpt, sovits, ref, promptText, lang, text), known, default)
         == Request("TRAINED", text, Some(TrainedConfig(gpt, sovits, ref, promptText, lang)))
  {
    var fields := [gpt, sovits, ref, promptText, lang, text];
    var p := TrainedPrompt(gpt, sovits, ref, promptText, lang, text);
    StartsWithConcat(TrainedPrefix, Join(fields, '|'));
    assert StartsWith(p, VoicePrefix) by {
      assert p[..|VoicePrefix|] == TrainedPrefix[..|VoicePrefix|];
    }
    assert p[|TrainedPrefix|..] == Join(fields, '|');
    SplitJoin(fields, '|', 5);
  }

  /** A cloned voice's prompt decodes to its clip path, transcript and
      (coerced) language over the shared base weights, and to exactly the
      typed text. */
  lemma CustomRoundTrip(ref: string, promptText: string, lang: string, text: string,
                        known: set<string>, default: string)
    requires NoPipe(ref) && NoPipe(promptText) && NoPipe(lang)
    ensures ParsePrompt(CustomPrompt(ref, promptText, lang, text), known, default)
         == Request("CUSTOM", text, Some(CustomConfig(ref, promptText, lang)))
  {
    var fields := [ref, promptText, lang, text];
    var p := CustomPrompt(ref, promptText, lang, text);
    StartsWithConcat(CustomPrefix, Join(fields, '|'));
    assert StartsWith(p, VoicePrefix) by {
      assert p[..|VoicePrefix|] == CustomPrefix[..|VoicePrefix|];
    }
    assert !StartsWith(p, TrainedPrefix) by {
      assert p[6] == 'C';
    }
    assert p[|CustomPrefix|..] == Join(fields, '|');
    SplitJoin(fields, '|', 3);
  }

  /** A named prompt decodes to the typed text, and to the named voice when
      the node knows it (its own voice otherwise). The name must not carry
      `|` or surrounding whitespace, and must not be one of the two words
      reserved for cloned voices. */
  lemma NamedRoundTrip(voiceId: string, text: string, known: set<string>, default: string)
    requires NoPipe(voiceId) && PyStrip(voiceId) == voiceId
    requires voiceId != "CUSTOM" && voiceId != "TRAINED"
    ensures ParsePrompt(NamedPrompt(voiceId, text), known, default)
         == Request(if voiceId in known then voiceId else default, text, None)
  {
    var p := NamedPrompt(voiceId, text);
    var head := VoicePrefix + voiceId;
    NamedPromptShape(voiceId, text);
    NamedPromptSplit(voiceId, text);
    assert ParsePrompt(p, known, default) == ParseNamed(p, known, default);
    assert Drop(head, |VoicePrefix|) == voiceId;
  }

  lemma NamedPromptShape(voiceId: string, text: string)
    requires NoPipe(voiceId) && voiceId != "CUSTOM" && voiceId != "TRAINED"
    ensures StartsWith(NamedPrompt(voiceId, text), VoicePrefix)
    ensures !StartsWith(NamedPrompt(voiceId, text), TrainedPrefix)
    ensures !StartsWith(NamedPrompt(voiceId, text), CustomPrefix)
  {
    StartsWithConcat(VoicePrefix, voiceId + "|" + text);
    assert NamedPrompt(voiceId, text) == VoicePrefix + (voiceId + "|" + text);
    NotReservedPrefix(voiceId, text, "TRAINED");
    NotReservedPrefix(voiceId, text, "CUSTOM");
  }

  lemma NamedPromptSplit(voiceId: string, text: string)
    requires NoPipe(voiceId)
    ensures Split(NamedPrompt(voiceId, text), '|', 1) == [VoicePrefix + voiceId, text]
  {
    var head := VoicePrefix + voiceId;
    assert NoPipe(head);
    assert Join([head, text], '|') == NamedPrompt(voiceId, text);
    SplitJoin([head, text], '|', 1);
  }

  /** "VOICE:<id>|…" starts with "VOICE:<word>|" only when id is the word. */
  lemma NotReservedPrefix(voiceId: string, text: string, word: string)
    requires NoPipe(voiceId) && NoPipe(word) && voiceId != word
    ensures !StartsWith(NamedPrompt(voiceId, text), VoicePrefix + word + "|")
  {
    var p := NamedPrompt(voiceId, text);
    var pre := VoicePrefix + word + "|";
    var i: nat;
    if |voiceId| < |word| {
      i := 6 + |voiceId|;
      assert p[i] == '|' && pre[i] == word[|voiceId|];
    } else if |voiceId| > |word| {
      i := 6 + |word|;
      assert pre[i] == '|' && p[i] == voiceId[|word|];
    } else {
      var j :| 0 <= j < |word| && voiceId[j] != word[j];
      i := 6 + j;
      assert p[i] == voiceId[j] && pre[i] == word[j];
    }
    assert i < |pre| && i < |p| && p[i] != pre[i];
  }

  /** A `|` in a cloned voice's transcript shifts the fields: the node reads
      the transcript's tail as the language and speaks the language and
      the text joined by `|`. */
  lemma PipeInTranscriptShiftsFields(ref: string, head: string, tail: string, lang: string, text: string,
                                     known: set<string>, default: string)
    requires NoPipe(ref) && NoPipe(head) && NoPipe(tail)
    ensures ParsePrompt(CustomPrompt(ref, head + "|" + tail, lang, text), known, default)
         == Request("CUSTOM", lang + "|" + text, Some(CustomConfig(ref, head, tail)))
  {
    Join4(ref, head + "|" + tail, lang, text);
    Join4(ref, head, tail, lang + "|" + text);
    assert ref + "|" + (head + "|" + tail) + "|" + lang + "|" + text
        == ref + "|" + head + "|" + tail + "|" + (lang + "|" + text);
    CustomRoundTrip(ref, head, tail, lang + "|" + text, known, default);
  }

  lemma Join4(a: string, b: string, c: string, d: string)
    ensures Join([a, b, c, d], '|') == a + "|" + b + "|" + c + "|" + d
  {
    assert [a, b, c, d][1..] == [b, c, d];
    assert [b, c, d][1..] == [c, d];
    assert [c, d][1..] == [d];
    assert Join([c, d], '|') == c + "|" + d;
    assert Join([b, c, d], '|') == b + "|" + (c + "|" + d);
    assert Join([a, b, c, d], '|') == a + "|" + (b + "|" + (c + "|" + d));
  }

  /** What the node should make of the screen's prompt: the selected voice
      with its configuration, or the named fallback, and the typed text. */
  function Intended(info: Option<Voice>, voiceId: string, text: string, voicesDir: string,
                    known: set<string>, default: string): Request {
    match info
    case None => NamedRequest(voiceId, text, known, default)
    case Some(v) =>
      if v.source == Trained then
        if v.gptWeights.Some? && v.sovitsWeights.Some? && v.referenceAudioPath.Some? && v.promptText.Some? then
          Request("TRAINED", text, Some(TrainedConfig(v.gptWeights.value, v.sovitsWeights.value,
                                                      v.referenceAudioPath.value, v.promptText.value, v.language)))
        else NamedRequest("Doubao", text, known, default)
      else if v.source == Custom then
        if v.referenceAudioPath.Some? && v.promptText.Some? then
          Request("CUSTOM", text, Some(CustomConfig(JoinPath(voicesDir, v.referenceAudioPath.value),
                                                    v.promptText.value, v.language)))
        else NamedRequest("Doubao", text, known, default)
      else NamedRequest(voiceId, text, known, default)
  }

  /** The request for a named voice: the voice itself when the node knows
      it, the node's own voice otherwise. */
  function NamedRequest(voiceId: string, text: string, known: set<string>, default: string): Request {
    Request(if voiceId in known then voiceId else default, text, None)
  }

  /** The request a plan stands for, as the node should decode it. */
  function Meaning(plan: Plan, text: string, known: set<string>, default: string): Request {
    match plan
    case NamedPlan(id) => NamedRequest(id, text, known, default)
    case TrainedPlan(gpt, sovits, ref, promptText, lang) =>
      Request("TRAINED", text, Some(TrainedConfig(gpt, sovits, ref, promptText, lang)))
    case CustomPlan(ref, promptText, lang) => Request("CUSTOM", text, Some(CustomConfig(ref, promptText, lang)))
  }

  /** The fields a plan sends are free of `|`, and a voice name is a plain
      name. */
  predicate PlanEncodable(plan: Plan) {
    match plan
    case NamedPlan(id) => NoPipe(id) && PyStrip(id) == id && id != "CUSTOM" && id != "TRAINED"
    case TrainedPlan(gpt, sovits, ref, promptText, lang) =>
      NoPipe(gpt) && NoPipe(sovits) && NoPipe(ref) && NoPipe(promptText) && NoPipe(lang)
    case CustomPlan(ref, promptText, lang) => NoPipe(ref) && NoPipe(promptText) && NoPipe(lang)
  }

  /** The screen can encode the selected voice without ambiguity. */
  predicate Encodable(info: Option<Voice>, voiceId: string, voicesDir: string) {
    PlanEncodable(PlanFor(info, voiceId, voicesDir))
  }

  /** Every encodable plan survives the trip through its prompt. */
  lemma RenderRoundTrip(plan: Plan, text: string, known: set<string>, default: string)
    requires PlanEncodable(plan)
    ensures ParsePrompt(Render(plan, text), known, default) == Meaning(plan, text, known, default)
  {
    match plan
    case NamedPlan(id) => NamedRoundTrip(id, text, known, default);
    case TrainedPlan(gpt, sovits, ref, promptText, lang) =>
      TrainedRoundTrip(gpt, sovits, ref, promptText, lang, text, known, default);
    case CustomPlan(ref, promptText, lang) => CustomRoundTrip(ref, promptText, lang, text, known, default);
  }

  /** The plan the screen builds stands for the request the voice record
      calls for. */
  lemma PlanMeansIntended(info: Option<Voice>, voiceId: string, text: string, voicesDir: string,
                          known: set<string>, default: string)
    ensures Meaning(PlanFor(info, voiceId, voicesDir), text, known, default)
         == Intended(info, voiceId, text, voicesDir, known, default)
  {
  }

  /** End to end: whatever voice the screen has selected, the node decodes
      the prompt to the intended voice, configuration and text. */
  lemma EncodeDecode(info: Option<Voice>, voiceId: string, text: string, voicesDir: string,
                     known: set<string>, default: string)
    requires Encodable(info, voiceId, voicesDir)
    ensures ParsePrompt(EncodePrompt(info, voiceId, text, voicesDir), known, default)
         == Intended(info, voiceId, text, voicesDir, known, default)
  {
    RenderRoundTrip(PlanFor(info, voiceId, voicesDir), text, known, default);
    PlanMeansIntended(info, voiceId, text, voicesDir, known, default);
  }

  /** "Doubao" is a plain voice name. */
  lemma DoubaoIsPlain()
    ensures NoPipe("Doubao") && PyStrip("Doubao") == "Doubao"
    ensures "Doubao" != "CUSTOM" && "Doubao" != "TRAINED"
  {
    var d := "Doubao";
    assert !IsPyWhitespace(d[0]) && !IsPyWhitespace(d[|d| - 1]);
    TrimUnchanged(d, IsPyWhitespace);
  }

  /** The fallback prompt decodes to Doubao when the node knows it. */
  lemma DoubaoRoundTrip(text: string, known: set<string>, default: string)
    ensures ParsePrompt(NamedPrompt("Doubao", text), known, default) == NamedRequest("Doubao", text, known, default)
  {
    DoubaoIsPlain();
    NamedRoundTrip("Doubao", text, known, default);
  }

  // ---------------------------------------------------------------------
  // The logged preview of the prompt, cut at 150 UTF-8 bytes.

  const PreviewBytes: nat := 150

  /** Bytes of a character in UTF-8. */
  function Utf8Width(c: char): (n: nat)
    ensures 1 <= n <= 4
  {
    if c as int < 0x80 then 1 else if c as int < 0x800 then 2 else if c as int < 0x10000 then 3 else 4
  }

  /** Length of a string in UTF-8 bytes (Rust's `str::len`). */
  function ByteLen(s: string): (n: nat)
    ensures n >= |s|
  {
    if s == [] then 0 else ByteLen(s[..|s| - 1]) + Utf8Width(s[|s| - 1])
  }

  lemma {:induction false} ByteLenAppend(a: string, b: string)
    ensures ByteLen(a + b) == ByteLen(a) + ByteLen(b)
    decreases |b|
  {
    if b != [] {
      assert (a + b)[..|a + b| - 1] == a + b[..|b| - 1];
      ByteLenAppend(a, b[..|b| - 1]);
    } else {
      assert a + b == a;
    }
  }

  lemma {:induction false} ByteLenPrefixMonotone(s: string, i: nat, j: nat)
    requires i <= j <= |s|
    ensures ByteLen(s[..i]) <= ByteLen(s[..j])
  {
    assert s[..j] == s[..i] + s[i..j];
    ByteLenAppend(s[..i], s[i..j]);
  }

  /** Byte offset `n` of `s` falls between two characters. */
  predicate IsCharBoundary(s: string, n: nat) {
    exists k :: 0 <= k <= |s| && ByteLen(s[..k]) == n
  }

  /** The most characters whose encoding fits in `n` bytes. */
  function CharsWithin(s: string, n: nat): (k: nat)
    ensures k <= |s| && ByteLen(s[..k]) <= n
    ensures k < |s| ==> ByteLen(s[..k + 1]) > n
    decreases |s|
  {
    if ByteLen(s) <= n then
      assert s[..|s|] == s;
      |s|
    else
      assert s[..|s| - 1][..|s| - 1] == s[..|s| - 1];
      var k := CharsWithin(s[..|s| - 1], n);
      assert s[..|s| - 1][..k] == s[..k];
      if k < |s| - 1 then
        assert s[..|s| - 1][..k + 1] == s[..k + 1];
        k
      else
        assert s[..k + 1] == s;
        k
  }

  /** The preview as the screen computes it: a prompt longer than 150 bytes
      is sliced at byte 150, which panics unless that offset lies between
      two characters. */
  function PreviewAsWritten(prompt: string): (r: Result<string, string>)
    ensures r.Err? <==> ByteLen(prompt) > PreviewBytes && !IsCharBoundary(prompt, PreviewBytes)
  {
    if ByteLen(prompt) <= PreviewBytes then Ok(prompt)
    else
      var k := CharsWithin(prompt, PreviewBytes);
      if ByteLen(prompt[..k]) == PreviewBytes then Ok(prompt[..k] + "...")
      else
        assert !IsCharBoundary(prompt, PreviewBytes) by {
          forall j | 0 <= j <= |prompt| ensures ByteLen(prompt[..j]) != PreviewBytes {
            if j <= k {
              ByteLenPrefixMonotone(prompt, j, k);
            } else {
              ByteLenPrefixMonotone(prompt, k + 1, j);
            }
          }
        }
        Err("byte index 150 is not a char boundary")
  }

  /** The preview cut at the last character boundary at or before byte
      150; it never fails. */
  function Preview(prompt: string): (r: string)
    ensures ByteLen(prompt) <= PreviewBytes ==> r == prompt
    ensures ByteLen(prompt) > PreviewBytes ==>
      exists k :: 0 <= k <= |prompt| && ByteLen(prompt[..k]) <= PreviewBytes && r == prompt[..k] + "..."
  {
    if ByteLen(prompt) <= PreviewBytes then prompt
    else prompt[..CharsWithin(prompt, PreviewBytes)] + "..."
  }

  /** Where the screen's slice succeeds, the safe preview is the same. */
  lemma PreviewAgrees(prompt: string)
    requires PreviewAsWritten(prompt).Ok?
    ensures PreviewAsWritten(prompt).value == Preview(prompt)
  {
  }

  lemma {:induction false} ByteLenAscii(s: string)
    requires forall k :: 0 <= k < |s| ==> s[k] as int < 0x80
    ensures ByteLen(s) == |s|
    decreases |s|
  {
    if s != [] {
      ByteLenAscii(s[..|s| - 1]);
    }
  }

  function Repeat(c: char, n: nat): (s: string)
    ensures |s| == n && forall k :: 0 <= k < n ==> s[k] == c
  {
    seq(n, _ => c)
  }

  lemma {:induction false} ByteLenRepeatCjk(n: nat)
    ensures ByteLen(Repeat('\U{4F60}', n)) == 3 * n
  {
    if n > 0 {
      assert Repeat('\U{4F60}', n)[..n - 1] == Repeat('\U{4F60}', n - 1);
      ByteLenRepeatCjk(n - 1);
    }
  }

  /** Forty-five Chinese characters sent with a built-in voice make the
      screen's preview slice panic: the prompt is 151 bytes long and byte
      150 falls inside the last character. */
  lemma ChineseTextPanicsPreview()
    ensures PreviewAsWritten(NamedPrompt("Luo Xiang", Repeat('\U{4F60}', 45))).Err?
  {
    var head := "VOICE:Luo Xiang|";
    assert NamedPrompt("Luo Xiang", Repeat('\U{4F60}', 45)) == head + Repeat('\U{4F60}', 45);
    assert forall k :: 0 <= k < |head| ==> head[k] as int < 0x80;
    CjkAfterAsciiSplitsByte150(head, 45);
  }

  lemma NotThreeTimes(d: int, m: int)
    requires d % 3 != 0
    ensures d != 3 * m
  {
    assert (3 * m) % 3 == 0;
  }

  /** After an ASCII head, three-byte characters put byte 150 inside a
      character whenever 150 minus the head's length is not a multiple of
      three and the text reaches past byte 150. */
  lemma CjkAfterAsciiSplitsByte150(head: string, n: nat)
    requires forall k :: 0 <= k < |head| ==> head[k] as int < 0x80
    requires |head| < PreviewBytes < |head| + 3 * n && (PreviewBytes - |head|) % 3 != 0
    ensures PreviewAsWritten(head + Repeat('\U{4F60}', n)).Err?
  {
    var body := Repeat('\U{4F60}', n);
    var p := head + body;
    ByteLenAscii(head);
    ByteLenRepeatCjk(n);
    ByteLenAppend(head, body);
    var k := CharsWithin(p, PreviewBytes);
    CjkPrefixLength(head, n, k);
    if k > |head| {
      NotThreeTimes(PreviewBytes - |head|, k - |head|);
    }
    assert ByteLen(p[..k]) != PreviewBytes;
  }

  /** The bytes of a prefix of an ASCII head followed by three-byte
      characters. */
  lemma CjkPrefixLength(head: string, n: nat, j: nat)
    requires forall k :: 0 <= k < |head| ==> head[k] as int < 0x80
    requires j <= |head| + n
    ensures j <= |head| ==> ByteLen((head + Repeat('\U{4F60}', n))[..j]) == j
    ensures j > |head| ==> ByteLen((head + Repeat('\U{4F60}', n))[..j]) == |head| + 3 * (j - |head|)
  {
    var p := head + Repeat('\U{4F60}', n);
    if j <= |head| {
      assert p[..j] == head[..j];
      ByteLenAscii(head[..j]);
    } else {
      var m := j - |head|;
      assert p[..j] == head + Repeat('\U{4F60}', m);
      ByteLenAscii(head);
      ByteLenAppend(head, Repeat('\U{4F60}', m));
      ByteLenRepeatCjk(m);
    }
  }
}
