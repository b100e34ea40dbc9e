/** The PrimeSpeech dora node's event loop: start-up configuration, the
    decision to (re)build the synthesis engine, batch and streaming
    synthesis, and the `audio` / `segment_complete` outputs it sends for each
    text segment. The engine is an oracle: building it may fail, batch
    synthesis returns one array or fails, streaming synthesis yields a
    finite sequence of fragments and may fail after them. */
module SynthesisNode {
  import opened Wrappers
  import opened Strings
  import opened Directive

  // ---------------------------------------------------------------------
  // Start-up

  /** The node's environment settings. `tuning` holds the engine settings
      copied verbatim into the voice configuration (top_k, top_p,
      temperature, batch_size, seed, text_split_method, split_bucket,
      use_gpu, device, sample_rate). Empty strings mean "not set". */
  datatype Settings = Settings(
    voiceName: string,
    promptText: string,
    textLang: string,
    promptLang: string,
    speedFactor: Option<Value>,
    fragmentInterval: Option<Value>,
    returnFragment: bool,
    tuning: Config)

  const TuningKeys: set<string> :=
    {"top_k", "top_p", "temperature", "batch_size", "seed", "text_split_method",
     "split_bucket", "use_gpu", "device", "sample_rate"}

  /** The configured voice's entry with the environment's prompt text and
      languages; a language is checked but kept even when invalid. */
  function EnvOverrides(st: Settings, base: Config): (c: Config)
    ensures st.promptText != "" ==> "prompt_text" in c && c["prompt_text"] == Str(st.promptText)
    ensures st.textLang != "" ==> "text_lang" in c && c["text_lang"] == Str(st.textLang)
    ensures st.promptLang != "" ==> "prompt_lang" in c && c["prompt_lang"] == Str(st.promptLang)
    ensures forall k :: k in base ==> k in c
    ensures forall k :: k in c && k != "prompt_text" && k != "text_lang" && k != "prompt_lang" ==>
      k in base && c[k] == base[k]
    ensures st.promptText == "" && "prompt_text" in base ==> c["prompt_text"] == base["prompt_text"]
  {
    var textLang := if st.textLang != "" then ValidateLanguageConfig(st.textLang, "TEXT_LANG").code else "";
    var promptLang := if st.promptLang != "" then ValidateLanguageConfig(st.promptLang, "PROMPT_LANG").code else "";
    SetIfGiven(SetIfGiven(SetIfGiven(base, "prompt_text", st.promptText), "text_lang", textLang),
               "prompt_lang", promptLang)
  }

  /** `key` set to the string `value` unless it is empty. */
  function SetIfGiven(c: Config, key: string, value: string): (r: Config)
    ensures value != "" ==> key in r && r[key] == Str(value)
    ensures value == "" ==> r == c
    ensures forall k :: k in c ==> k in r
    ensures forall k :: k in r && k != key ==> k in c && r[k] == c[k]
  {
    if value != "" then c[key := Str(value)] else c
  }

  /** The node-wide voice configuration: the environment overrides, then
      the tuning settings, the effective speed factor (environment, else
      the voice's, else 1.0), the streaming flag and the effective fragment
      interval (environment, else the voice's, else none). */
  function StartupConfig(st: Settings, base: Config): (c: Config)
    ensures "speed_factor" in c
      && c["speed_factor"] == (if st.speedFactor.Some? then st.speedFactor.value
                               else Get(base, "speed_factor", Real(1.0)))
    ensures "return_fragment" in c && c["return_fragment"] == Bool(st.returnFragment)
  {
    var c3 := EnvOverrides(st, base);
    LaterKeysNotTuning();
    assert Get(c3, "speed_factor", Real(1.0)) == Get(base, "speed_factor", Real(1.0)) by {
      assert "speed_factor" != "prompt_text" && "speed_factor" != "text_lang" && "speed_factor" != "prompt_lang";
    }
    var speed := if st.speedFactor.Some? then st.speedFactor.value else Get(c3, "speed_factor", Real(1.0));
    var interval := if st.fragmentInterval.Some? then st.fragmentInterval
                    else if "fragment_interval" in c3 then Some(c3["fragment_interval"]) else None;
    WithInterval(WithSpeed(WithTuning(c3, st.tuning), speed, st.returnFragment), interval)
  }

  /** The effective speed factor and the streaming flag set. */
  function WithSpeed(c: Config, speed: Value, streaming: bool): (r: Config)
    ensures "speed_factor" in r && r["speed_factor"] == speed
    ensures "return_fragment" in r && r["return_fragment"] == Bool(streaming)
    ensures forall k :: k != "speed_factor" && k != "return_fragment" ==>
      (k in r <==> k in c) && (k in c ==> r[k] == c[k])
  {
    c["speed_factor" := speed]["return_fragment" := Bool(streaming)]
  }

  /** The effective fragment interval set, when there is one. */
  function WithInterval(c: Config, interval: Option<Value>): (r: Config)
    ensures interval.Some? ==> "fragment_interval" in r && r["fragment_interval"] == interval.value
    ensures interval.None? ==> r == c
    ensures forall k :: k != "fragment_interval" ==> (k in r <==> k in c) && (k in c ==> r[k] == c[k])
  {
    if interval.Some? then c["fragment_interval" := interval.value] else c
  }

  /** The tuning settings are copied verbatim. */
  lemma StartupTuning(st: Settings, base: Config)
    ensures forall k :: k in TuningKeys && k in st.tuning ==>
      k in StartupConfig(st, base) && StartupConfig(st, base)[k] == st.tuning[k]
  {
    LaterKeysNotTuning();
  }

  /** The environment's prompt text and languages survive the later
      updates. */
  lemma StartupKeepsEnv(st: Settings, base: Config)
    ensures var c := StartupConfig(st, base);
      (st.promptText != "" ==> "prompt_text" in c && c["prompt_text"] == Str(st.promptText))
      && (st.textLang != "" ==> "text_lang" in c && c["text_lang"] == Str(st.textLang))
      && (st.promptLang != "" ==> "prompt_lang" in c && c["prompt_lang"] == Str(st.promptLang))
  {
    EnvKeysNotTuning();
    assert "prompt_text" != "speed_factor" && "prompt_text" != "return_fragment" && "prompt_text" != "fragment_interval";
    assert "prompt_lang" != "speed_factor" && "prompt_lang" != "return_fragment" && "prompt_lang" != "fragment_interval";
  }

  /** The fragment interval is the environment's, else the voice's, else
      absent. */
  lemma StartupInterval(st: Settings, base: Config)
    ensures var c := StartupConfig(st, base);
      (st.fragmentInterval.Some? ==> "fragment_interval" in c && c["fragment_interval"] == st.fragmentInterval.value)
      && (st.fragmentInterval.None? ==>
            ("fragment_interval" in c <==> "fragment_interval" in base)
            && ("fragment_interval" in base ==> c["fragment_interval"] == base["fragment_interval"]))
  {
    assert "fragment_interval" != "prompt_text" && "fragment_interval" != "text_lang"
      && "fragment_interval" != "prompt_lang";
    assert "fragment_interval" !in TuningKeys;
    assert "fragment_interval" != "speed_factor" && "fragment_interval" != "return_fragment";
  }

  lemma LaterKeysNotTuning()
    ensures "speed_factor" !in TuningKeys && "return_fragment" !in TuningKeys
    ensures "fragment_interval" !in TuningKeys
  {
  }

  lemma EnvKeysNotTuning()
    ensures "prompt_text" !in TuningKeys && "prompt_lang" !in TuningKeys
    ensures "text_lang" !in TuningKeys
    ensures "text_lang" != "speed_factor" && "text_lang" != "return_fragment" && "text_lang" != "fragment_interval"
  {
    assert "text_lang"[1] == 'e';
    assert "text_lang" != "top_k" && "text_lang" != "top_p";
    assert "text_lang" != "text_split_method" by { assert "text_lang"[5] != "text_split_method"[5]; }
  }

  /** `c.update(tuning)` over the tuning keys. */
  function WithTuning(c: Config, tuning: Config): (r: Config)
    ensures forall k :: k in TuningKeys && k in tuning ==> k in r && r[k] == tuning[k]
    ensures forall k :: k !in TuningKeys ==> (k in r <==> k in c) && (k in c ==> r[k] == c[k])
  {
    c + map k | k in tuning && k in TuningKeys :: tuning[k]
  }

  /** The engine's voice argument: the voice name lower-cased without
      spaces. */
  function EngineVoiceName(name: string): (r: string)
    ensures ' ' !in r
  {
    Remove(AsciiLower(name), ' ')
  }

  // ---------------------------------------------------------------------
  // Engine oracle, events and outputs

  /** A built engine: the voice name it was built for, whether it streams,
      whether its internal model is present, and the configuration it was
      built with. */
  datatype Engine = Engine(voice: string, streaming: bool, hasTts: bool, config: Config)

  /** One piece of synthesised audio: its sample rate and samples (`None`
      when the engine returned no array). */
  datatype Fragment = Fragment(rate: int, samples: Option<seq<real>>)

  /** What a streaming call yields: its fragments, then possibly an error. */
  datatype Stream = Stream(fragments: seq<Fragment>, failure: Option<string>)

  /** The arguments of a synthesis call. */
  datatype SynthRequest = SynthRequest(text: string, language: Value, speed: Value, fragmentInterval: Option<Value>)

  /** The engine's behaviour: building an engine for a voice name, a
      streaming flag and a configuration (`Ok(hasTts)` or the exception's
      message), batch synthesis and streaming synthesis. */
  datatype Oracle = Oracle(
    construct: (string, bool, Config) -> Result<bool, string>,
    batch: (Engine, SynthRequest) -> Result<Fragment, string>,
    stream: (Engine, SynthRequest) -> Stream)

  /** The text input's payload once JSON decoding was attempted: not JSON
      at all, a JSON object with or without a "prompt" member, or any other
      JSON value. */
  datatype Payload = NotJson(raw: string) | JsonObject(prompt: Option<Value>) | JsonOther

  datatype Event =
    | TextInput(payload: Payload, meta: Config)
    | ControlInput(command: string)
    | OtherInput(id: string)
    | StopEvent
    | OtherEvent

  datatype Output = Audio(samples: seq<real>, meta: Config) | SegmentComplete(status: string, meta: Config)

  datatype NodeStatus = Running | Stopped | Crashed(error: string)

  datatype NodeState = NodeState(
    voiceName: string,
    voiceConfig: Config,
    registry: map<string, Config>,
    streaming: bool,
    engine: Option<Engine>,
    modelLoaded: bool,
    totalSyntheses: nat,
    totalDuration: real,
    outputs: seq<Output>,
    status: NodeStatus)

  /** What start-up establishes and every event keeps: the node's voice is
      registered with the node-wide configuration as its entry, and a
      loaded model has an engine. */
  predicate Valid(s: NodeState) {
    s.voiceName in s.registry && s.registry[s.voiceName] == s.voiceConfig
    && (s.modelLoaded ==> s.engine.Some?)
  }

  const NoneLenError: string := "object of type 'NoneType' has no len()"
  const DivisionByZero: string := "division by zero"
  const NoFragments: string := "No audio fragments produced during streaming synthesis"
  const EmptyAudio: string := "TTS returned empty audio array"
  const NoEngine: string := "TTS engine not initialized"
  const NoInternalTts: string := "Internal TTS engine not initialized"
  const SessionIdUndefined: string := "name 'session_id' is not defined"

  /** The engine built in advance: kept only when it was built with its
      internal model. */
  function PreBuild(voice: string, streaming: bool, cfg: Config, o: Oracle): (e: Option<Engine>)
    ensures e.Some? <==> o.construct(EngineVoiceName(voice), streaming, cfg) == Ok(true)
    ensures e.Some? ==> e.value == Engine(voice, streaming, true, cfg)
  {
    if o.construct(EngineVoiceName(voice), streaming, cfg) == Ok(true) then Some(Engine(voice, streaming, true, cfg))
    else None
  }

  /** Start-up: an unknown voice falls back to Doubao, whose absence from
      the registry is fatal; the chosen voice's entry becomes the node-wide
      configuration (the node edits the registry's entry in place); then
      one engine is built in advance, and a failure, or an engine without
      its internal model, leaves the node unloaded. */
  function Startup(st: Settings, registry: map<string, Config>, o: Oracle): (r: Result<NodeState, string>)
    ensures r.Ok? <==> st.voiceName in registry || FallbackVoice in registry
    ensures r.Ok? ==> Valid(r.value) && r.value.status == Running && r.value.outputs == []
    ensures r.Ok? ==> r.value.voiceName == (if st.voiceName in registry then st.voiceName else FallbackVoice)
    ensures r.Ok? ==> r.value.registry == registry[r.value.voiceName := r.value.voiceConfig]
    ensures r.Ok? ==> r.value.totalSyntheses == 0 && r.value.totalDuration == 0.0
    ensures r.Ok? ==> (r.value.modelLoaded <==> r.value.engine.Some?)
  {
    var voice := if st.voiceName in registry then st.voiceName else FallbackVoice;
    if voice !in registry then Err("KeyError: '" + FallbackVoice + "'")
    else
      var cfg := StartupConfig(st, registry[voice]);
      var engine := PreBuild(voice, st.returnFragment, cfg, o);
      var reg := registry[voice := cfg];
      assert reg[voice] == cfg;
      Ok(NodeState(voice, cfg, reg, st.returnFragment, engine, engine.Some?, 0, 0.0, [], Running))
  }

  /** Start-up changes the entry of the node's voice and no other. */
  lemma StartupKeepsRegistry(st: Settings, registry: map<string, Config>, o: Oracle)
    requires Startup(st, registry, o).Ok?
    ensures var s := Startup(st, registry, o).value;
      s.registry.Keys == registry.Keys
      && forall k :: k in registry && k != s.voiceName ==> s.registry[k] == registry[k]
  {
    var s := Startup(st, registry, o).value;
    UpdateKeepsKeys(registry, s.voiceName, s.voiceConfig);
  }

  /** Overwriting a present key keeps the key set and the other entries. */
  lemma UpdateKeepsKeys<V>(m: map<string, V>, key: string, v: V)
    requires key in m
    ensures m[key := v].Keys == m.Keys
    ensures forall k :: k in m && k != key ==> m[key := v][k] == m[k]
  {
  }

  // ---------------------------------------------------------------------
  // The segment index

  predicate IsDigit(c: char) {
    '0' <= c <= '9'
  }

  /** A run of ASCII digits in which single underscores may separate two
      digits: it starts and ends with a digit, holds only digits and
      underscores, and no two underscores are adjacent. */
  predicate IsDigitGroups(b: string) {
    b != [] && IsDigit(b[0]) && IsDigit(b[|b| - 1])
    && (forall k :: 0 <= k < |b| ==> IsDigit(b[k]) || b[k] == '_')
    && (forall k :: 0 < k < |b| ==> b[k - 1] == '_' ==> b[k] != '_')
  }

  /** An optional sign followed by digit groups. */
  predicate IsSignedDigitGroups(t: string) {
    IsDigitGroups(if t != [] && (t[0] == '+' || t[0] == '-') then t[1..] else t)
  }

  /** A string Python's `int()` accepts in base 10: surrounding
      whitespace, then a signed run of digit groups. */
  predicate IsIntLiteral(str: string) {
    IsSignedDigitGroups(PyStrip(str))
  }

  /** The error `int(metadata.get("segment_index", -1))` raises: only a
      string that is not an integer literal fails; a missing key gives -1,
      and integers, booleans and floats convert. */
  function SegmentIndexError(meta: Config): (r: Option<string>)
    ensures r.Some? <==> "segment_index" in meta && meta["segment_index"].Str?
                         && !IsIntLiteral(meta["segment_index"].s)
  {
    match Get(meta, "segment_index", Int(-1))
    case Str(str) =>
      if IsIntLiteral(str) then None
      else Some("invalid literal for int() with base 10: '" + str + "'")
    case _ => None
  }

  predicate AllDigits(d: string) {
    d != [] && forall k :: 0 <= k < |d| ==> IsDigit(d[k])
  }

  /** A string that needs no stripping converts exactly when it is a
      signed run of digit groups. */
  lemma UnpaddedLiteral(t: string)
    requires t != [] && !IsPyWhitespace(t[0]) && !IsPyWhitespace(t[|t| - 1])
    ensures IsIntLiteral(t) <==> IsSignedDigitGroups(t)
  {
    TrimUnchanged(t, IsPyWhitespace);
  }

  lemma SignedDigits(sign: string, d: string)
    requires sign == [] || sign == ['+'] || sign == ['-']
    requires AllDigits(d)
    ensures IsSignedDigitGroups(sign + d)
  {
    if sign == [] {
      assert sign + d == d;
    } else {
      assert (sign + d)[1..] == d;
    }
  }

  /** Digits, with or without a sign, convert. */
  lemma DigitsConvert(sign: string, d: string)
    requires sign == [] || sign == ['+'] || sign == ['-']
    requires AllDigits(d)
    ensures IsIntLiteral(sign + d)
  {
    var t := sign + d;
    SignedDigits(sign, d);
    assert t[0] == (if sign == [] then d[0] else sign[0]) && t[|t| - 1] == d[|d| - 1];
    UnpaddedLiteral(t);
  }

  /** Two digit runs joined by one underscore convert. */
  lemma GroupsConvert(a: string, b: string)
    requires AllDigits(a) && AllDigits(b)
    ensures IsIntLiteral(a + "_" + b)
  {
    var t := a + "_" + b;
    JoinedGroups(a, b);
    assert t[0] == a[0] && t[|t| - 1] == b[|b| - 1];
    assert IsSignedDigitGroups(t);
    UnpaddedLiteral(t);
  }

  lemma JoinedGroups(a: string, b: string)
    requires AllDigits(a) && AllDigits(b)
    ensures IsDigitGroups(a + "_" + b)
  {
    var t := a + "_" + b;
    assert t[0] == a[0] && t[|t| - 1] == b[|b| - 1];
    forall k | 0 <= k < |t|
      ensures IsDigit(t[k]) || t[k] == '_'
      ensures k != |a| ==> IsDigit(t[k])
    {
      if k < |a| {
        assert t[k] == a[k];
      } else if k > |a| {
        assert t[k] == b[k - |a| - 1];
      }
    }
  }

  /** Blanks around a string do not change whether it converts. */
  lemma PaddingIgnored(x: string)
    requires x != [] && !IsPyWhitespace(x[0]) && !IsPyWhitespace(x[|x| - 1])
    ensures IsIntLiteral(" " + x + " ") <==> IsIntLiteral(x)
  {
    var s := " " + x + " ";
    assert s[0] == ' ' && s[1] == x[0];
    assert TrimStart(s, IsPyWhitespace) == x + " ";
    var y := x + " ";
    assert y[|y| - 1] == ' ' && y[|y| - 2] == x[|x| - 1];
    assert TrimEnd(y, IsPyWhitespace) == x;
    TrimUnchanged(x, IsPyWhitespace);
  }

  /** A converting string ends, once stripped, in a digit: the empty
      string, a lone sign or a trailing underscore do not convert. */
  lemma LiteralEndsInDigit(str: string)
    requires IsIntLiteral(str)
    ensures var t := PyStrip(str); t != [] && IsDigit(t[|t| - 1])
  {
    var t := PyStrip(str);
    assert IsSignedDigitGroups(t);
    if t != [] && (t[0] == '+' || t[0] == '-') {
      assert t[1..][|t| - 2] == t[|t| - 1];
    }
  }

  /** A character other than a digit, an underscore or a sign, left after
      stripping, stops the conversion: a word or a decimal fraction does
      not convert. */
  lemma StrayCharRefused(str: string, i: nat)
    requires i < |PyStrip(str)|
    requires var c := PyStrip(str)[i]; !IsDigit(c) && c != '_' && c != '+' && c != '-'
    ensures !IsIntLiteral(str)
  {
    StrayCharNotGroups(PyStrip(str), i);
  }

  lemma StrayCharNotGroups(t: string, i: nat)
    requires i < |t|
    requires !IsDigit(t[i]) && t[i] != '_' && t[i] != '+' && t[i] != '-'
    ensures !IsSignedDigitGroups(t)
  {
    var u := if t[0] == '+' || t[0] == '-' then t[1..] else t;
    var j := if t[0] == '+' || t[0] == '-' then i - 1 else i;
    assert 0 <= j < |u| && u[j] == t[i];
    assert !IsDigit(u[j]) && u[j] != '_';
  }

  // ---------------------------------------------------------------------
  // Output metadata

  /** The pass-through metadata of audio and completions: the request's
      question id and session status, or "default" and "unknown" when
      the request has none. */
  function PassThrough(meta: Config): (m: Config)
    ensures m.Keys == {"question_id", "session_status"}
    ensures m["question_id"] == if "question_id" in meta then meta["question_id"] else Str("default")
    ensures m["session_status"] == if "session_status" in meta then meta["session_status"] else Str("unknown")
  {
    map["question_id" := Get(meta, "question_id", Str("default")),
        "session_status" := Get(meta, "session_status", Str("unknown"))]
  }

  /** Metadata of an audio output. */
  function AudioMeta(meta: Config, rate: int, count: nat): Config
    requires rate != 0
  {
    PassThrough(meta)["sample_rate" := Int(rate)]["duration" := Real(count as real / rate as real)]
  }

  /** Metadata of an error completion. */
  function ErrorMeta(meta: Config, error: string, stage: string): Config {
    map["question_id" := Get(meta, "question_id", Str("default")),
        "session_status" := Str("error"),
        "error" := Str(error),
        "error_stage" := Str(stage)]
  }

  /** The metadata carries the input's question id and session status. */
  predicate CarriesRequestMeta(m: Config, meta: Config) {
    "question_id" in m && m["question_id"] == Get(meta, "question_id", Str("default"))
    && "session_status" in m && m["session_status"] == Get(meta, "session_status", Str("unknown"))
  }

  // ---------------------------------------------------------------------
  // Synthesis

  /** A fragment the node can send or skip without failing. */
  predicate Playable(f: Fragment) {
    f.samples.Some? && f.rate != 0
  }

  /** What the node does with one streamed fragment: it measures the
      fragment first (so a missing array or a zero rate raises), then skips
      an empty one and sends any other. */
  function FragmentOutput(f: Fragment, meta: Config): (r: Result<seq<Output>, string>)
    ensures r.Ok? <==> Playable(f)
    ensures r.Ok? ==> |r.value| == (if |f.samples.value| == 0 then 0 else 1)
  {
    if f.samples.None? then Err(NoneLenError)
    else if f.rate == 0 then Err(DivisionByZero)
    else if |f.samples.value| == 0 then Ok([])
    else Ok([Audio(f.samples.value, AudioMeta(meta, f.rate, |f.samples.value|))])
  }

  datatype StreamResult = StreamResult(audio: seq<Output>, error: Option<string>)

  /** The streaming loop over `frs`, stopping at the first failing fragment. */
  function StreamRun(frs: seq<Fragment>, meta: Config): (r: StreamResult)
    ensures r.error.None? <==> forall k :: 0 <= k < |frs| ==> Playable(frs[k])
    ensures |r.audio| <= |frs|
    ensures forall k :: 0 <= k < |r.audio| ==>
      r.audio[k].Audio? && |r.audio[k].samples| > 0 && CarriesRequestMeta(r.audio[k].meta, meta)
    decreases |frs|
  {
    if frs == [] then StreamResult([], None)
    else
      var init := frs[..|frs| - 1];
      var prev := StreamRun(init, meta);
      if prev.error.Some? then
        assert !Playable(frs[|frs| - 1]) || exists k :: 0 <= k < |init| && !Playable(init[k]);
        prev
      else
        match FragmentOutput(frs[|frs| - 1], meta)
        case Err(e) => StreamResult(prev.audio, Some(e))
        case Ok(out) =>
          assert forall k :: 0 <= k < |frs| - 1 ==> frs[k] == init[k];
          StreamResult(prev.audio + out, None)
  }

  /** Samples of the non-empty fragments, in order. */
  function NonEmptySamples(frs: seq<Fragment>): seq<seq<real>>
    requires forall k :: 0 <= k < |frs| ==> frs[k].samples.Some?
  {
    if frs == [] then []
    else (if |frs[0].samples.value| > 0 then [frs[0].samples.value] else []) + NonEmptySamples(frs[1..])
  }

  function SamplesOf(outs: seq<Output>): seq<seq<real>>
    requires forall k :: 0 <= k < |outs| ==> outs[k].Audio?
  {
    if outs == [] then [] else [outs[0].samples] + SamplesOf(outs[1..])
  }

  lemma {:induction false} SamplesOfAppend(a: seq<Output>, b: seq<Output>)
    requires forall k :: 0 <= k < |a| ==> a[k].Audio?
    requires forall k :: 0 <= k < |b| ==> b[k].Audio?
    ensures SamplesOf(a + b) == SamplesOf(a) + SamplesOf(b)
    decreases |a|
  {
    if a != [] {
      assert (a + b)[1..] == a[1..] + b;
      SamplesOfAppend(a[1..], b);
    } else {
      assert a + b == b;
    }
  }

  lemma {:induction false} NonEmptySamplesSnoc(frs: seq<Fragment>)
    requires frs != [] && forall k :: 0 <= k < |frs| ==> frs[k].samples.Some?
    ensures NonEmptySamples(frs) == NonEmptySamples(frs[..|frs| - 1])
      + (if |frs[|frs| - 1].samples.value| > 0 then [frs[|frs| - 1].samples.value] else [])
    decreases |frs|
  {
    if |frs| > 1 {
      NonEmptySamplesSnoc(frs[1..]);
      assert frs[1..][..|frs[1..]| - 1] == frs[..|frs| - 1][1..];
    }
  }

  /** When streaming succeeds, the audio sent is exactly the non-empty
      fragments, in the order the engine yielded them. */
  lemma {:induction false} StreamSendsNonEmptyFragments(frs: seq<Fragment>, meta: Config)
    requires forall k :: 0 <= k < |frs| ==> Playable(frs[k])
    ensures SamplesOf(StreamRun(frs, meta).audio) == NonEmptySamples(frs)
    decreases |frs|
  {
    if frs != [] {
      var init := frs[..|frs| - 1];
      var last := frs[|frs| - 1];
      StreamSendsNonEmptyFragments(init, meta);
      var out := FragmentOutput(last, meta).value;
      SamplesOfAppend(StreamRun(init, meta).audio, out);
      NonEmptySamplesSnoc(frs);
      if |last.samples.value| > 0 {
        assert SamplesOf(out) == [last.samples.value];
      }
    }
  }

  /** Once a fragment fails, later fragments change nothing. */
  lemma {:induction false} StreamRunSticky(frs: seq<Fragment>, meta: Config, i: nat)
    requires i <= |frs| && StreamRun(frs[..i], meta).error.Some?
    ensures StreamRun(frs, meta) == StreamRun(frs[..i], meta)
    decreases |frs| - i
  {
    if i < |frs| {
      assert frs[..i + 1][..i] == frs[..i];
      StreamRunSticky(frs, meta, i + 1);
    } else {
      assert frs[..i] == frs;
    }
  }

  /** The outcome of one synthesis attempt: the audio sent, the error
      raised if any, and the duration added to the statistics (batch only). */
  datatype SynthOutcome = SynthOutcome(audio: seq<Output>, error: Option<string>, counted: Option<real>)

  /** One synthesis attempt with the current engine. */
  function Attempt(engine: Option<Engine>, req: SynthRequest, meta: Config, o: Oracle): (r: SynthOutcome)
    ensures engine.None? ==> r == SynthOutcome([], Some(NoEngine), None)
    ensures r.counted.Some? ==> engine.Some? && !engine.value.streaming && r.error.None? && |r.audio| == 1
    ensures forall k :: 0 <= k < |r.audio| ==>
      r.audio[k].Audio? && |r.audio[k].samples| > 0 && CarriesRequestMeta(r.audio[k].meta, meta)
    ensures r.error.None? && engine.Some? && !engine.value.streaming ==> r.counted.Some?
  {
    match engine
    case None => SynthOutcome([], Some(NoEngine), None)
    case Some(e) =>
      if !e.hasTts then SynthOutcome([], Some(NoInternalTts), None)
      else if e.streaming then
        var st := o.stream(e, req);
        var run := StreamRun(st.fragments, meta);
        if run.error.Some? then SynthOutcome(run.audio, run.error, None)
        else if st.failure.Some? then SynthOutcome(run.audio, st.failure, None)
        else if |st.fragments| == 0 then SynthOutcome([], Some(NoFragments), None)
        else SynthOutcome(run.audio, None, None)
      else
        match o.batch(e, req)
        case Err(m) => SynthOutcome([], Some(m), None)
        case Ok(f) =>
          if f.samples.None? then SynthOutcome([], Some(NoneLenError), None)
          else if f.rate == 0 then SynthOutcome([], Some(DivisionByZero), None)
          else if |f.samples.value| == 0 then SynthOutcome([], Some(EmptyAudio), None)
          else
            var duration := |f.samples.value| as real / f.rate as real;
            SynthOutcome([Audio(f.samples.value, AudioMeta(meta, f.rate, |f.samples.value|))], None, Some(duration))
  }

  /** The completion closing a segment that reached synthesis. */
  function Completion(oc: SynthOutcome, meta: Config): Output {
    match oc.error
    case None => SegmentComplete("completed", PassThrough(meta))
    case Some(e) => SegmentComplete("error", ErrorMeta(meta, e, "synthesis"))
  }

  /** The synthesis arguments: the text, and the language, speed and
      fragment interval of the node-wide configuration, whatever voice is
      speaking. */
  function SynthRequestFor(s: NodeState, text: string): SynthRequest {
    SynthRequest(text, Get(s.voiceConfig, "text_lang", Str("zh")), Get(s.voiceConfig, "speed_factor", Real(1.0)),
                 if "fragment_interval" in s.voiceConfig then Some(s.voiceConfig["fragment_interval"]) else None)
  }

  // ---------------------------------------------------------------------
  // One text segment

  /** The prompt of the payload; a JSON value that is not an object, or a
      prompt that is not a string, makes the node fail. */
  function PromptOf(p: Payload): (r: Result<string, string>)
    ensures p.NotJson? ==> r == Ok(p.raw)
    ensures p == JsonObject(None) ==> r == Ok("")
    ensures r.Ok? <==> p.NotJson? || (p.JsonObject? && (p.prompt.None? || p.prompt.value.Str?))
  {
    match p
    case NotJson(raw) => Ok(raw)
    case JsonObject(None) => Ok("")
    case JsonObject(Some(Str(s))) => Ok(s)
    case JsonObject(Some(_)) => Err("AttributeError: object has no attribute 'startswith'")
    case JsonOther => Err("AttributeError: object has no attribute 'get'")
  }

  /** The two completions of a skipped segment. */
  function SkipOutputs(meta: Config): seq<Output> {
    [SegmentComplete("skipped", PassThrough(meta)), SegmentComplete("empty", meta)]
  }

  /** The voice the loaded engine was built for (the node's own voice when
      there is no engine). */
  function LoadedVoice(s: NodeState): string {
    if s.engine.Some? then s.engine.value.voice else s.voiceName
  }

  /** The reload test as the node writes it: no model loaded, or a
      different voice name. */
  predicate NeedsReloadAsWritten(s: NodeState, req: Request) {
    !s.modelLoaded || LoadedVoice(s) != req.voice
  }

  /** The reload test that also compares the configuration a cloned voice
      asks for with the one the engine was built with. */
  predicate NeedsReload(s: NodeState, req: Request) {
    NeedsReloadAsWritten(s, req)
    || (req.custom.Some? && s.engine.Some? && s.engine.value.config != Completed(req.custom.value, s.voiceConfig))
  }

  /** The voice name and (not yet completed) configuration of the engine to
      build: a cloned voice's own, an unknown name's fallback to the node's
      voice, or the registry's entry. */
  function EngineChoice(s: NodeState, req: Request): (string, Config)
    requires Valid(s)
  {
    if req.custom.Some? then (req.voice, req.custom.value)
    else if req.voice !in s.registry then (s.voiceName, s.registry[s.voiceName])
    else (req.voice, s.registry[req.voice])
  }

  /** Synthesis with the current engine and the segment's completion. */
  function Synthesis(s: NodeState, text: string, meta: Config, o: Oracle): NodeState {
    var oc := Attempt(s.engine, SynthRequestFor(s, text), meta, o);
    s.(outputs := s.outputs + oc.audio + [Completion(oc, meta)],
       totalSyntheses := if oc.counted.Some? then s.totalSyntheses + 1 else s.totalSyntheses,
       totalDuration := if oc.counted.Some? then s.totalDuration + oc.counted.value else s.totalDuration)
  }

  /** A text segment after decoding: skip, (re)build the engine if needed,
      synthesise. `asWritten` selects the node's own reload test and its
      failing engine-build error path; otherwise the corrected ones. */
  function Segment(s: NodeState, req: Request, meta: Config, o: Oracle, asWritten: bool): NodeState
    requires Valid(s)
  {
    if IsSkippable(req.text) then s.(outputs := s.outputs + SkipOutputs(meta))
    else if ReloadTest(s, req, asWritten) then Rebuild(s, req, meta, o, asWritten)
    else Synthesis(s, req.text, meta, o)
  }

  predicate ReloadTest(s: NodeState, req: Request, asWritten: bool) {
    if asWritten then NeedsReloadAsWritten(s, req) else NeedsReload(s, req)
  }

  /** Building the engine for the request, then synthesising with it; a
      failed build ends the segment. */
  function Rebuild(s: NodeState, req: Request, meta: Config, o: Oracle, asWritten: bool): NodeState
    requires Valid(s)
  {
    var (name, cfg) := EngineChoice(s, req);
    var merged := Completed(cfg, s.voiceConfig);
    match o.construct(EngineVoiceName(name), s.streaming, merged)
    case Err(m) =>
      if asWritten then s.(modelLoaded := false, status := Crashed(SessionIdUndefined))
      else s.(modelLoaded := false, outputs := s.outputs + [SegmentComplete("error", ErrorMeta(meta, m, "init"))])
    case Ok(hasTts) =>
      Synthesis(s.(engine := Some(Engine(name, s.streaming, hasTts, merged)), modelLoaded := true), req.text, meta, o)
  }

  /** One text input: the prompt is extracted, then the segment index is
      converted before anything else, so a bad index ends the node even
      for a segment that would be skipped. */
  function HandleText(s: NodeState, p: Payload, meta: Config, o: Oracle, asWritten: bool): NodeState
    requires Valid(s)
  {
    match PromptOf(p)
    case Err(e) => s.(status := Crashed(e))
    case Ok(raw) =>
      if SegmentIndexError(meta).Some? then s.(status := Crashed(SegmentIndexError(meta).value))
      else Segment(s, ParsePrompt(raw, s.registry.Keys, s.voiceName), meta, o, asWritten)
  }

  /** One event of the node's loop; nothing happens once the loop has
      ended. Control commands only log. */
  function Process(s: NodeState, ev: Event, o: Oracle, asWritten: bool): NodeState
    requires Valid(s)
  {
    if !s.status.Running? then s
    else match ev
      case TextInput(p, meta) => HandleText(s, p, meta, o, asWritten)
      case StopEvent => s.(status := Stopped)
      case _ => s
  }

  // ---------------------------------------------------------------------
  // Properties of a step

  /** Every step keeps the node valid, never touches the configuration,
      only appends outputs and never lowers the statistics. */
  lemma ProcessKeepsValid(s: NodeState, ev: Event, o: Oracle, asWritten: bool)
    requires Valid(s)
    ensures var t := Process(s, ev, o, asWritten);
      Valid(t) && t.voiceName == s.voiceName && t.voiceConfig == s.voiceConfig
      && t.registry == s.registry && t.streaming == s.streaming
      && s.outputs <= t.outputs
      && t.totalSyntheses >= s.totalSyntheses
  {
    if s.status.Running? && ev.TextInput? {
      match PromptOf(ev.payload)
      case Err(_) =>
      case Ok(raw) =>
        SegmentKeeps(s, ParsePrompt(raw, s.registry.Keys, s.voiceName), ev.meta, o, asWritten);
    }
  }

  /** What a segment preserves: validity, the node's voice, registry and
      mode, the output prefix and the statistics' growth; outside the
      as-written crash every segment ends with a completion. */
  ghost predicate Keeps(s: NodeState, t: NodeState, asWritten: bool)
  {
    Valid(t) && t.voiceName == s.voiceName && t.voiceConfig == s.voiceConfig
    && t.registry == s.registry && t.streaming == s.streaming
    && s.outputs <= t.outputs
    && t.totalSyntheses >= s.totalSyntheses
    && (!asWritten && s.status.Running? ==>
          t.status == Running && |t.outputs| > |s.outputs| && t.outputs[|t.outputs| - 1].SegmentComplete?)
  }

  lemma SegmentKeeps(s: NodeState, req: Request, meta: Config, o: Oracle, asWritten: bool)
    requires Valid(s)
    ensures Keeps(s, Segment(s, req, meta, o, asWritten), asWritten)
  {
    if IsSkippable(req.text) {
    } else if ReloadTest(s, req, asWritten) {
      RebuildKeeps(s, req, meta, o, asWritten);
    } else {
      SynthesisKeeps(s, req.text, meta, o);
    }
  }

  lemma RebuildKeeps(s: NodeState, req: Request, meta: Config, o: Oracle, asWritten: bool)
    requires Valid(s)
    ensures Keeps(s, Rebuild(s, req, meta, o, asWritten), asWritten)
  {
    var (name, cfg) := EngineChoice(s, req);
    var merged := Completed(cfg, s.voiceConfig);
    match o.construct(EngineVoiceName(name), s.streaming, merged)
    case Err(m) =>
    case Ok(hasTts) =>
      SynthesisKeeps(s.(engine := Some(Engine(name, s.streaming, hasTts, merged)), modelLoaded := true), req.text, meta, o);
  }

  /** Synthesis changes only the outputs, which grow by a completion, and
      the statistics, which never decrease. */
  lemma SynthesisKeeps(s: NodeState, text: string, meta: Config, o: Oracle)
    ensures var t := Synthesis(s, text, meta, o);
      t == s.(outputs := t.outputs, totalSyntheses := t.totalSyntheses, totalDuration := t.totalDuration)
      && s.outputs < t.outputs && t.outputs[|t.outputs| - 1].SegmentComplete?
      && t.totalSyntheses >= s.totalSyntheses
  {
  }

  /** A segment that is empty or only punctuation once decoded is answered
      by "skipped" and "empty" completions and reaches no engine. */
  lemma SkippedSegment(s: NodeState, raw: string, meta: Config, o: Oracle, asWritten: bool)
    requires Valid(s) && s.status.Running? && SegmentIndexError(meta).None?
    requires IsSkippable(ParsePrompt(raw, s.registry.Keys, s.voiceName).text)
    ensures Process(s, TextInput(NotJson(raw), meta), o, asWritten)
         == s.(outputs := s.outputs + [SegmentComplete("skipped", PassThrough(meta)), SegmentComplete("empty", meta)])
  {
  }
  /** A segment index that is a non-integer string ends the node before
      the segment is looked at, whatever its text, with no output; the
      index itself is only ever logged. */
  lemma BadSegmentIndexCrashes(s: NodeState, raw: string, meta: Config, events: seq<Event>, o: Oracle, asWritten: bool)
    requires Valid(s) && s.status.Running? && SegmentIndexError(meta).Some?
    ensures var t := Run(s, [TextInput(NotJson(raw), meta)] + events, o, asWritten);
      t.outputs == s.outputs && t.status == Crashed(SegmentIndexError(meta).value)
  {
    var ev := TextInput(NotJson(raw), meta);
    var u := Process(s, ev, o, asWritten);
    assert u == s.(status := Crashed(SegmentIndexError(meta).value));
    assert ([ev] + events)[1..] == events;
    RunAfterEnd(u, events, o, asWritten);
  }


  /** Without a reload the engine and the load flag stay as they were. */
  lemma NoReloadKeepsEngine(s: NodeState, req: Request, meta: Config, o: Oracle)
    requires Valid(s) && !IsSkippable(req.text) && !NeedsReload(s, req)
    ensures Segment(s, req, meta, o, false).engine == s.engine
    ensures Segment(s, req, meta, o, false).modelLoaded == s.modelLoaded
  {
  }

  /** An engine that fails to build leaves the node unloaded with its old
      engine object, answers with one "init" error and nothing else, so
      the next segment retries. */
  lemma FailedBuildRetries(s: NodeState, req: Request, meta: Config, o: Oracle)
    requires Valid(s) && !IsSkippable(req.text) && NeedsReload(s, req)
    requires o.construct(EngineVoiceName(EngineChoice(s, req).0), s.streaming,
                         Completed(EngineChoice(s, req).1, s.voiceConfig)).Err?
    ensures var t := Segment(s, req, meta, o, false);
      !t.modelLoaded && t.engine == s.engine && t.status == s.status
      && |t.outputs| == |s.outputs| + 1
      && t.outputs[|s.outputs|].SegmentComplete? && t.outputs[|s.outputs|].status == "error"
      && t.outputs[|s.outputs|].meta["error_stage"] == Str("init")
      && NeedsReload(t, req)
  {
  }

  /** A successful build records the requested voice and the completed
      configuration, so the same request does not rebuild again. */
  lemma BuildRecordsVoice(s: NodeState, req: Request, meta: Config, o: Oracle)
    requires Valid(s) && !IsSkippable(req.text) && NeedsReload(s, req)
    requires req.custom.Some? || req.voice in s.registry
    requires o.construct(EngineVoiceName(EngineChoice(s, req).0), s.streaming,
                         Completed(EngineChoice(s, req).1, s.voiceConfig)).Ok?
    ensures var t := Segment(s, req, meta, o, false);
      t.modelLoaded && t.engine.Some? && t.engine.value.voice == req.voice
      && !NeedsReload(t, req)
  {
  }

  /** The segment's new outputs: the audio, then exactly one completion,
      "completed" with the input's question id and session status when
      synthesis succeeded, else "error" at the synthesis stage. */
  lemma SynthesisOutputs(s: NodeState, text: string, meta: Config, o: Oracle)
    ensures var t := Synthesis(s, text, meta, o);
      var oc := Attempt(s.engine, SynthRequestFor(s, text), meta, o);
      var added := t.outputs[|s.outputs|..];
      s.outputs <= t.outputs && |added| == |oc.audio| + 1
      && (forall k :: 0 <= k < |added| - 1 ==>
            added[k].Audio? && CarriesRequestMeta(added[k].meta, meta))
      && added[|added| - 1].SegmentComplete?
      && (oc.error.None? ==>
            added[|added| - 1] == SegmentComplete("completed", PassThrough(meta))
            && CarriesRequestMeta(added[|added| - 1].meta, meta))
      && (oc.error.Some? ==>
            added[|added| - 1].status == "error"
            && added[|added| - 1].meta["session_status"] == Str("error")
            && added[|added| - 1].meta["error_stage"] == Str("synthesis"))
  {
    var t := Synthesis(s, text, meta, o);
    var oc := Attempt(s.engine, SynthRequestFor(s, text), meta, o);
    assert t.outputs == s.outputs + (oc.audio + [Completion(oc, meta)]);
    assert t.outputs[|s.outputs|..] == oc.audio + [Completion(oc, meta)];
  }

  /** The statistics move only on a successful batch synthesis, by one
      synthesis and its duration; streaming never updates them. */
  lemma StatisticsOnlyOnBatch(s: NodeState, text: string, meta: Config, o: Oracle)
    ensures var t := Synthesis(s, text, meta, o);
      var oc := Attempt(s.engine, SynthRequestFor(s, text), meta, o);
      (t.totalSyntheses == s.totalSyntheses + 1 <==>
         s.engine.Some? && !s.engine.value.streaming && oc.error.None?)
      && (t.totalSyntheses != s.totalSyntheses ==> t.totalSyntheses == s.totalSyntheses + 1)
      && (s.engine.Some? && s.engine.value.streaming ==>
            t.totalSyntheses == s.totalSyntheses && t.totalDuration == s.totalDuration)
  {
  }

  /** A streaming segment fails with "no audio fragments" exactly when the
      engine yields nothing (and raised nothing itself). */
  lemma NoFragmentsIff(e: Engine, req: SynthRequest, meta: Config, o: Oracle)
    requires e.hasTts && e.streaming && o.stream(e, req).failure.None?
    ensures Attempt(Some(e), req, meta, o).error == Some(NoFragments) <==> o.stream(e, req).fragments == []
  {
    var frs := o.stream(e, req).fragments;
    var run := StreamRun(frs, meta);
    if run.error.Some? {
      var k :| 0 <= k < |frs| && !Playable(frs[k]);
      assert run.error == StreamRun(frs, meta).error;
      StreamErrorIsFragmentError(frs, meta);
    }
  }

  /** A stream's error is one of the two errors raised while measuring a
      fragment. */
  lemma {:induction false} StreamErrorIsFragmentError(frs: seq<Fragment>, meta: Config)
    ensures StreamRun(frs, meta).error.Some? ==>
      StreamRun(frs, meta).error.value in {NoneLenError, DivisionByZero}
    decreases |frs|
  {
    if frs != [] {
      StreamErrorIsFragmentError(frs[..|frs| - 1], meta);
    }
  }

  /** Synthesis takes its language and speed from the node-wide
      configuration: two segments with the same text get the same
      arguments whatever voices they ask for. */
  lemma LanguageIgnoresVoice(s: NodeState, raw1: string, raw2: string)
    requires ParsePrompt(raw1, s.registry.Keys, s.voiceName).text == ParsePrompt(raw2, s.registry.Keys, s.voiceName).text
    ensures SynthRequestFor(s, ParsePrompt(raw1, s.registry.Keys, s.voiceName).text)
         == SynthRequestFor(s, ParsePrompt(raw2, s.registry.Keys, s.voiceName).text)
  {
  }

  /** The engine itself never reports a missing engine. */
  ghost predicate OracleErrorsDiffer(o: Oracle, message: string) {
    forall e: Engine, r: SynthRequest ::
      o.stream(e, r).failure != Some(message) && o.batch(e, r) != Err(message)
  }

  /** With a valid node, a segment never fails for lack of an engine: a
      missing engine means no model is loaded, which forces a build first. */
  lemma NeverWithoutEngine(s: NodeState, req: Request, meta: Config, o: Oracle)
    requires Valid(s) && !IsSkippable(req.text) && OracleErrorsDiffer(o, NoEngine)
    ensures var t := Segment(s, req, meta, o, false);
      forall k :: |s.outputs| <= k < |t.outputs| ==>
        t.outputs[k] != SegmentComplete("error", ErrorMeta(meta, NoEngine, "synthesis"))
  {
    var t := Segment(s, req, meta, o, false);
    if NeedsReload(s, req) {
      var (name, cfg) := EngineChoice(s, req);
      var merged := Completed(cfg, s.voiceConfig);
      match o.construct(EngineVoiceName(name), s.streaming, merged)
      case Err(m) =>
        assert t.outputs == s.outputs + [SegmentComplete("error", ErrorMeta(meta, m, "init"))];
        assert ErrorMeta(meta, m, "init")["error_stage"] != ErrorMeta(meta, NoEngine, "synthesis")["error_stage"];
      case Ok(hasTts) =>
        var s1 := s.(engine := Some(Engine(name, s.streaming, hasTts, merged)), modelLoaded := true);
        NoEngineOnlyWithoutEngine(s1, req.text, meta, o);
        NoEngineCompletion(s1, req.text, meta, o);
    } else {
      NoEngineOnlyWithoutEngine(s, req.text, meta, o);
      NoEngineCompletion(s, req.text, meta, o);
    }
  }

  lemma NoEngineCompletion(s: NodeState, text: string, meta: Config, o: Oracle)
    requires Attempt(s.engine, SynthRequestFor(s, text), meta, o).error != Some(NoEngine)
    ensures var t := Synthesis(s, text, meta, o);
      forall k :: |s.outputs| <= k < |t.outputs| ==>
        t.outputs[k] != SegmentComplete("error", ErrorMeta(meta, NoEngine, "synthesis"))
  {
    var oc := Attempt(s.engine, SynthRequestFor(s, text), meta, o);
    var t := Synthesis(s, text, meta, o);
    forall k | |s.outputs| <= k < |t.outputs|
      ensures t.outputs[k] != SegmentComplete("error", ErrorMeta(meta, NoEngine, "synthesis"))
    {
      if k == |t.outputs| - 1 {
        assert t.outputs[k] == Completion(oc, meta);
        if oc.error.Some? {
          assert ErrorMeta(meta, oc.error.value, "synthesis")["error"] != ErrorMeta(meta, NoEngine, "synthesis")["error"];
        }
      } else {
        assert t.outputs[k] == oc.audio[k - |s.outputs|];
      }
    }
  }

  lemma NoEngineOnlyWithoutEngine(s: NodeState, text: string, meta: Config, o: Oracle)
    requires s.engine.Some? && OracleErrorsDiffer(o, NoEngine)
    ensures Attempt(s.engine, SynthRequestFor(s, text), meta, o).error != Some(NoEngine)
  {
    var e := s.engine.value;
    var req := SynthRequestFor(s, text);
    assert o.stream(e, req).failure != Some(NoEngine) && o.batch(e, req) != Err(NoEngine);
    StreamErrorIsFragmentError(o.stream(e, req).fragments, meta);
  }

  // ---------------------------------------------------------------------
  // The loop over events

  /** The node's loop over a sequence of events; `asWritten` selects the
      node's own reload test and engine-build error path, as in `Process`. */
  function Run(s: NodeState, events: seq<Event>, o: Oracle, asWritten: bool): (t: NodeState)
    requires Valid(s)
    ensures Valid(t) && s.outputs <= t.outputs
    ensures t.voiceName == s.voiceName && t.voiceConfig == s.voiceConfig
    decreases |events|
  {
    if events == [] then s
    else
      ProcessKeepsValid(s, events[0], o, asWritten);
      Run(Process(s, events[0], o, asWritten), events[1..], o, asWritten)
  }

  /** Events after a stop, or after the node failed, change nothing. */
  lemma {:induction false} RunAfterEnd(s: NodeState, events: seq<Event>, o: Oracle, asWritten: bool)
    requires Valid(s) && !s.status.Running?
    ensures Run(s, events, o, asWritten) == s
    decreases |events|
  {
    if events != [] {
      RunAfterEnd(s, events[1..], o, asWritten);
    }
  }

  /** Control commands ("reset", "stats" or any other) leave the node as it
      was. */
  lemma ControlIsInert(s: NodeState, command: string, events: seq<Event>, o: Oracle, asWritten: bool)
    requires Valid(s)
    ensures Run(s, [ControlInput(command)] + events, o, asWritten) == Run(s, events, o, asWritten)
  {
    assert ([ControlInput(command)] + events)[1..] == events;
  }

  /** As written, one segment whose engine build fails ends the loop: no
      event after it, whatever it is, sends anything. */
  lemma FailedBuildEndsRunAsWritten(s: NodeState, raw: string, meta: Config, events: seq<Event>, o: Oracle)
    requires Valid(s) && s.status.Running? && SegmentIndexError(meta).None?
    requires var req := ParsePrompt(raw, s.registry.Keys, s.voiceName);
      !IsSkippable(req.text) && NeedsReloadAsWritten(s, req)
      && o.construct(EngineVoiceName(EngineChoice(s, req).0), s.streaming,
                     Completed(EngineChoice(s, req).1, s.voiceConfig)).Err?
    ensures var t := Run(s, [TextInput(NotJson(raw), meta)] + events, o, true);
      t.outputs == s.outputs && t.status == Crashed(SessionIdUndefined)
  {
    var req := ParsePrompt(raw, s.registry.Keys, s.voiceName);
    var ev := TextInput(NotJson(raw), meta);
    FailedBuildStopsNodeAsWritten(s, req, meta, o);
    var u := Process(s, ev, o, true);
    assert u == Segment(s, req, meta, o, true);
    ProcessKeepsValid(s, ev, o, true);
    assert ([ev] + events)[1..] == events;
    RunAfterEnd(u, events, o, true);
  }

  // ---------------------------------------------------------------------
  // Findings

  /** A node whose model is loaded for the first cloned voice, asked to
      speak with a second cloned voice, as the node is written: the name
      "CUSTOM" matches, no rebuild happens, and the second voice is spoken
      by the engine built for the first. */
  lemma SecondClonedVoiceKeepsFirstEngine(s: NodeState, req: Request, meta: Config, o: Oracle)
    requires Valid(s) && s.modelLoaded && s.engine.value.voice == "CUSTOM"
    requires req.voice == "CUSTOM" && req.custom.Some? && !IsSkippable(req.text)
    requires s.engine.value.config != Completed(req.custom.value, s.voiceConfig)
    ensures !NeedsReloadAsWritten(s, req)
    ensures Segment(s, req, meta, o, true).engine == s.engine
    ensures Segment(s, req, meta, o, true).engine.value.config != Completed(req.custom.value, s.voiceConfig)
  {
  }

  /** With the corrected test, a cloned voice is always spoken by an
      engine built with its own configuration once the build succeeds. */
  lemma ClonedVoiceGetsItsEngine(s: NodeState, req: Request, meta: Config, o: Oracle)
    requires Valid(s) && req.custom.Some? && !IsSkippable(req.text)
    requires !NeedsReload(s, req)
      || o.construct(EngineVoiceName(req.voice), s.streaming, Completed(req.custom.value, s.voiceConfig)).Ok?
    ensures var t := Segment(s, req, meta, o, false);
      t.engine.Some? && t.engine.value.voice == req.voice
      && t.engine.value.config == Completed(req.custom.value, s.voiceConfig)
  {
  }

  /** As written, an engine that fails to build mid-session stops the node
      with a NameError before any completion is sent, so the client waits
      for a `segment_complete` that never comes. */
  lemma FailedBuildStopsNodeAsWritten(s: NodeState, req: Request, meta: Config, o: Oracle)
    requires Valid(s) && !IsSkippable(req.text) && NeedsReloadAsWritten(s, req)
    requires o.construct(EngineVoiceName(EngineChoice(s, req).0), s.streaming,
                         Completed(EngineChoice(s, req).1, s.voiceConfig)).Err?
    ensures Segment(s, req, meta, o, true).status == Crashed(SessionIdUndefined)
    ensures Segment(s, req, meta, o, true).outputs == s.outputs
  {
  }

  /** Corrected, every segment that reaches the engine ends with exactly
      one completion and the node keeps running. */
  lemma EverySegmentCompletes(s: NodeState, req: Request, meta: Config, o: Oracle)
    requires Valid(s) && s.status.Running?
    ensures var t := Segment(s, req, meta, o, false);
      t.status == Running && |t.outputs| > |s.outputs|
      && t.outputs[|t.outputs| - 1].SegmentComplete?
  {
    SegmentKeeps(s, req, meta, o, false);
  }

  // ---------------------------------------------------------------------
  // The node object

  class Node {
    var voiceName: string
    var voiceConfig: Config
    var registry: map<string, Config>
    var streaming: bool
    var engine: Option<Engine>
    var modelLoaded: bool
    var totalSyntheses: nat
    var totalDuration: real
    var outputs: seq<Output>
    var status: NodeStatus

    function State(): NodeState
      reads this
    {
      NodeState(voiceName, voiceConfig, registry, streaming, engine, modelLoaded,
                totalSyntheses, totalDuration, outputs, status)
    }

    /** The node after start-up. */
    constructor(st: Settings, reg: map<string, Config>, o: Oracle)
      requires Startup(st, reg, o).Ok?
      ensures State() == Startup(st, reg, o).value
    {
      var init := Startup(st, reg, o).value;
      voiceName := init.voiceName;
      voiceConfig := init.voiceConfig;
      registry := init.registry;
      streaming := init.streaming;
      engine := init.engine;
      modelLoaded := init.modelLoaded;
      totalSyntheses := init.totalSyntheses;
      totalDuration := init.totalDuration;
      outputs := init.outputs;
      status := init.status;
    }

    /** One synthesis attempt, with the streaming loop written out. */
    static method Synthesize(engine: Option<Engine>, req: SynthRequest, meta: Config, o: Oracle)
      returns (oc: SynthOutcome)
      ensures oc == Attempt(engine, req, meta, o)
    {
      if engine.None? {
        return SynthOutcome([], Some(NoEngine), None);
      }
      var e := engine.value;
      if !e.hasTts {
        return SynthOutcome([], Some(NoInternalTts), None);
      }
      if e.streaming {
        var st := o.stream(e, req);
        var frs := st.fragments;
        var audio: seq<Output> := [];
        var error: Option<string> := None;
        var fragmentNum := 0;
        while fragmentNum < |frs| && error.None?
          invariant 0 <= fragmentNum <= |frs|
          invariant StreamResult(audio, error) == StreamRun(frs[..fragmentNum], meta)
        {
          var f := frs[fragmentNum];
          assert frs[..fragmentNum + 1][..fragmentNum] == frs[..fragmentNum];
          if f.samples.None? {
            error := Some(NoneLenError);
          } else if f.rate == 0 {
            error := Some(DivisionByZero);
          } else if |f.samples.value| > 0 {
            audio := audio + [Audio(f.samples.value, AudioMeta(meta, f.rate, |f.samples.value|))];
          }
          fragmentNum := fragmentNum + 1;
        }
        if error.Some? {
          StreamRunSticky(frs, meta, fragmentNum);
          return SynthOutcome(audio, error, None);
        }
        assert frs[..fragmentNum] == frs;
        if st.failure.Some? {
          return SynthOutcome(audio, st.failure, None);
        }
        if fragmentNum == 0 {
          return SynthOutcome([], Some(NoFragments), None);
        }
        return SynthOutcome(audio, None, None);
      }
      var batch := o.batch(e, req);
      if batch.Err? {
        return SynthOutcome([], Some(batch.error), None);
      }
      var f := batch.value;
      if f.samples.None? {
        return SynthOutcome([], Some(NoneLenError), None);
      }
      if f.rate == 0 {
        return SynthOutcome([], Some(DivisionByZero), None);
      }
      var duration := |f.samples.value| as real / f.rate as real;
      if |f.samples.value| == 0 {
        return SynthOutcome([], Some(EmptyAudio), None);
      }
      oc := SynthOutcome([Audio(f.samples.value, AudioMeta(meta, f.rate, |f.samples.value|))], None, Some(duration));
    }

    /** One text segment; `asWritten` selects the node's own reload test
        and engine-build error path, otherwise the corrected ones. */
    method HandleTextInput(p: Payload, meta: Config, o: Oracle, asWritten: bool)
      requires Valid(State())
      modifies this
      ensures State() == HandleText(old(State()), p, meta, o, asWritten)
    {
      var prompt := PromptOf(p);
      if prompt.Err? {
        status := Crashed(prompt.error);
        return;
      }
      var indexError := SegmentIndexError(meta);
      if indexError.Some? {
        status := Crashed(indexError.value);
        return;
      }
      var req := ParsePrompt(prompt.value, registry.Keys, voiceName);
      SegmentStep(req, meta, o, asWritten);
    }

    /** A decoded segment: skip, rebuild if needed, synthesise. */
    method SegmentStep(req: Request, meta: Config, o: Oracle, asWritten: bool)
      requires Valid(State())
      modifies this
      ensures State() == Segment(old(State()), req, meta, o, asWritten)
    {
      if IsSkippable(req.text) {
        outputs := outputs + SkipOutputs(meta);
        return;
      }
      var reload := if asWritten then NeedsReloadAsWritten(State(), req) else NeedsReload(State(), req);
      if reload {
        RebuildStep(req, meta, o, asWritten);
      } else {
        SynthesisStep(req.text, meta, o);
      }
    }

    method RebuildStep(req: Request, meta: Config, o: Oracle, asWritten: bool)
      requires Valid(State())
      modifies this
      ensures State() == Rebuild(old(State()), req, meta, o, asWritten)
    {
      var (name, cfg) := EngineChoice(State(), req);
      var merged := MergeGlobalDefaults(cfg, voiceConfig);
      var built := o.construct(EngineVoiceName(name), streaming, merged);
      if built.Err? {
        modelLoaded := false;
        if asWritten {
          status := Crashed(SessionIdUndefined);
        } else {
          outputs := outputs + [SegmentComplete("error", ErrorMeta(meta, built.error, "init"))];
        }
        return;
      }
      engine := Some(Engine(name, streaming, built.value, merged));
      modelLoaded := true;
      SynthesisStep(req.text, meta, o);
    }

    method SynthesisStep(text: string, meta: Config, o: Oracle)
      modifies this
      ensures State() == Synthesis(old(State()), text, meta, o)
    {
      var oc := Synthesize(engine, SynthRequestFor(State(), text), meta, o);
      outputs := outputs + oc.audio + [Completion(oc, meta)];
      if oc.counted.Some? {
        totalSyntheses := totalSyntheses + 1;
        totalDuration := totalDuration + oc.counted.value;
      }
    }

    /** One event of the loop. */
    method Handle(ev: Event, o: Oracle, asWritten: bool)
      requires Valid(State())
      modifies this
      ensures State() == Process(old(State()), ev, o, asWritten)
    {
      if !status.Running? {
        return;
      }
      match ev {
        case TextInput(p, meta) => HandleTextInput(p, meta, o, asWritten);
        case StopEvent => status := Stopped;
        case _ =>
      }
    }

    /** The loop over the node's events. */
    method RunAll(events: seq<Event>, o: Oracle, asWritten: bool)
      requires Valid(State())
      modifies this
      ensures State() == Run(old(State()), events, o, asWritten)
    {
      var i := 0;
      while i < |events|
        invariant 0 <= i <= |events|
        invariant Valid(State())
        invariant Run(old(State()), events, o, asWritten) == Run(State(), events[i..], o, asWritten)
      {
        assert events[i..][1..] == events[i + 1..];
        ProcessKeepsValid(State(), events[i], o, asWritten);
        Handle(events[i], o, asWritten);
        i := i + 1;
      }
    }
  }
}
