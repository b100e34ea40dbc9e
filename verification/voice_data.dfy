/** Voice records shared by the voice list, the persistence layer and the
    prompt encoder, the fifteen built-in GPT-SoVITS voices, and the status
    enumerations of speech generation and voice cloning. */
module VoiceData {
  import opened Wrappers

  /** Where a voice comes from: shipped with the app, cloned zero-shot
      from a reference clip, or trained few-shot with its own weights. */
  datatype VoiceSource = Builtin | Custom | Trained

  datatype VoiceCategory = Male | Female | Character {
    function AsStr(): (s: string)
      ensures s in {"Male", "Female", "Character"}
    {
      match this
      case Male => "Male"
      case Female => "Female"
      case Character => "Character"
    }
  }

  datatype Voice = Voice(
    id: string,
    name: string,
    description: string,
    category: VoiceCategory,
    language: string,
    previewAudio: Option<string>,
    source: VoiceSource,
    /** relative to the custom-voices directory for cloned voices */
    referenceAudioPath: Option<string>,
    promptText: Option<string>,
    gptWeights: Option<string>,
    sovitsWeights: Option<string>,
    /** Unix seconds */
    createdAt: Option<nat>)
  {
    predicate IsCustom() { source == Custom }
    predicate IsTrained() { source == Trained }
    predicate HasCustomModels() { gptWeights.Some? || sovitsWeights.Some? }
  }

  /** Status of speech generation on the main screen. */
  datatype TTSStatus = Idle | Generating | Ready | Playing | Error(message: string)

  /** Progress of saving a cloned voice. */
  datatype CloningStatus =
    | CloningIdle | ValidatingAudio | CopyingFiles | SavingConfig | CloningCompleted
    | CloningError(message: string)

  function BuiltinVoice(id: string, name: string, description: string, category: VoiceCategory,
                        language: string, preview: string): (v: Voice)
    ensures v.source == Builtin && v.referenceAudioPath.None? && !v.HasCustomModels()
    ensures v.id == id && v.language == language && v.previewAudio == Some(preview)
  {
    Voice(id, name, description, category, language, Some(preview), Builtin,
          None, None, None, None, None)
  }

  /** The built-in voices, Chinese first, in display order: ten Chinese
      voices led by Doubao, then five English ones, none with weights or a
      reference clip of its own. */
  function BuiltinVoices(): (vs: seq<Voice>)
    ensures |vs| == 15
    ensures forall k :: 0 <= k < |vs| ==>
      vs[k].source == Builtin && !vs[k].HasCustomModels() && vs[k].referenceAudioPath.None?
      && vs[k].language == (if k < 10 then "zh" else "en")
  {
    seq(15, k requires 0 <= k < 15 => BuiltinVoiceAt(k))
  }

  /** The k-th built-in voice. */
  function BuiltinVoiceAt(k: nat): (v: Voice)
    requires k < 15
    ensures v.source == Builtin && !v.HasCustomModels() && v.referenceAudioPath.None?
    ensures v.language == (if k < 10 then "zh" else "en")
  {
    if k < 10 then ChineseVoiceAt(k) else EnglishVoiceAt(k - 10)
  }

  /** The k-th of the ten Chinese built-in voices. */
  function ChineseVoiceAt(k: nat): (v: Voice)
    requires k < 10
    ensures v.source == Builtin && !v.HasCustomModels() && v.referenceAudioPath.None?
    ensures v.language == "zh"
  {
    match k
    case 0 => BuiltinVoice("Doubao", "\U{8C46}\U{5305} (Doubao)",
      "Chinese - mixed style, natural and expressive", Character, "zh", "doubao_ref_mix_new.wav")
    case 1 => BuiltinVoice("Luo Xiang", "\U{7F57}\U{7FD4} (Luo Xiang)",
      "Chinese male - law professor, articulate and thoughtful", Male, "zh", "luoxiang_ref.wav")
    case 2 => BuiltinVoice("Yang Mi", "\U{6768}\U{5E42} (Yang Mi)",
      "Chinese female - actress, sweet and charming", Female, "zh", "yangmi_ref.wav")
    case 3 => BuiltinVoice("Zhou Jielun", "\U{5468}\U{6770}\U{4F26} (Zhou Jielun)",
      "Chinese male - singer, unique and distinctive", Male, "zh", "zhoujielun_ref.wav")
    case 4 => BuiltinVoice("Ma Yun", "\U{9A6C}\U{4E91} (Ma Yun)",
      "Chinese male - entrepreneur, confident speaker", Male, "zh", "mayun_ref.wav")
    case 5 => BuiltinVoice("Chen Yifan", "\U{9648}\U{4E00}\U{51E1} (Chen Yifan)",
      "Chinese male - analyst, professional tone", Male, "zh", "yfc_ref.wav")
    case 6 => BuiltinVoice("Zhao Daniu", "\U{8D75}\U{5927}\U{725B} (Zhao Daniu)",
      "Chinese male - podcast host, engaging narrator", Male, "zh", "dnz_ref.wav")
    case 7 => BuiltinVoice("BYS", "BYS",
      "Chinese - casual and friendly", Character, "zh", "bys_ref.wav")
    case 8 => BuiltinVoice("Ma Baoguo", "\U{9A6C}\U{4FDD}\U{56FD} (Ma Baoguo)",
      "Chinese male - martial arts master, distinctive style", Male, "zh", "mabaoguo_ref.wav")
    case _ => BuiltinVoice("Shen Yi", "\U{6C88}\U{9038} (Shen Yi)",
      "Chinese male - professor, analytical tone", Male, "zh", "shenyi_ref.wav")
  }

  /** The k-th of the five English built-in voices. */
  function EnglishVoiceAt(k: nat): (v: Voice)
    requires k < 5
    ensures v.source == Builtin && !v.HasCustomModels() && v.referenceAudioPath.None?
    ensures v.language == "en"
  {
    match k
    case 0 => BuiltinVoice("Maple", "Maple",
      "English female - storyteller, warm and gentle", Female, "en", "maple_ref.wav")
    case 1 => BuiltinVoice("Cove", "Cove",
      "English male - commentator, clear and professional", Male, "en", "cove_ref.wav")
    case 2 => BuiltinVoice("Ellen", "Ellen",
      "English female - talk show host, energetic", Female, "en", "ellen_ref.wav")
    case 3 => BuiltinVoice("Juniper", "Juniper",
      "English female - narrator, calm and soothing", Female, "en", "juniper_ref.wav")
    case _ => BuiltinVoice("Trump", "Trump",
      "English male - distinctive speaking style", Male, "en", "trump_ref.wav")
  }

  /** A zero-shot cloned voice: its name shown in the description, the
      Character category, the reference clip doubling as preview, the
      shared base weights (no weights of its own) and the creation time. */
  function NewCustom(id: string, name: string, language: string, referenceAudioPath: string,
                     promptText: string, now: nat): (v: Voice)
    ensures v.id == id && v.name == name && v.language == language
    ensures v.IsCustom() && !v.IsTrained() && !v.HasCustomModels()
    ensures v.referenceAudioPath == Some(referenceAudioPath) && v.promptText == Some(promptText)
    ensures v.previewAudio == v.referenceAudioPath
    ensures v.description == "Custom voice - " + name && v.category == Character
    ensures v.createdAt == Some(now)
  {
    Voice(id, name, "Custom voice - " + name, Character, language, Some(referenceAudioPath),
          Custom, Some(referenceAudioPath), Some(promptText), None, None, Some(now))
  }
}
