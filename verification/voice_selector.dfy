/** The voice list widget's own state: the displayed voices (the built-in
    ones followed by the stored custom ones), the custom voices alone, the
    selected voice, the voice whose preview is playing and whether the
    dataflow runs; together with the actions the widget emits. */
module VoiceSelector {
  import opened Wrappers
  import opened VoiceData
  import opened VoicePersistence

  datatype SelectorAction =
    | VoiceSelected(voiceId: string)
    | PreviewRequested(voiceId: string)
    | CloneVoiceClicked
    | RequestStartDora
    | RequestDeleteConfirmation(voiceId: string, voiceName: string)

  /** `iter().find(|v| v.id == id)` over a voice list. */
  function FindVoice(vs: seq<Voice>, id: string): (r: Option<Voice>)
    ensures r.None? <==> !HasId(vs, id)
    ensures r.Some? ==> r.value.id == id && r.value in vs
    ensures r.Some? ==> forall k :: 0 <= k < |vs| && vs[k].id == id ==> k >= FirstIndex(vs, id).value
  {
    match FirstIndex(vs, id)
    case None => None
    case Some(i) => Some(vs[i])
  }

  /** The selection after deleting `id` from a list that leaves `remaining`:
      kept unless it was the deleted voice, in which case the first
      remaining voice, or none. */
  function SelectionAfterDelete(selected: Option<string>, remaining: seq<Voice>, id: string): Option<string>
  {
    if selected == Some(id) then (if remaining == [] then None else Some(remaining[0].id))
    else selected
  }

  /** A selection that names a listed voice stays one across a delete, and
      never names the deleted voice. */
  lemma DeleteKeepsSelectionListed(voices: seq<Voice>, selected: Option<string>, id: string)
    requires selected.Some? ==> HasId(voices, selected.value)
    ensures var after := SelectionAfterDelete(selected, Without(voices, id), id);
      after.Some? ==> HasId(Without(voices, id), after.value) && after.value != id
  {
    var remaining := Without(voices, id);
    WithoutMembers(voices, id);
    var after := SelectionAfterDelete(selected, remaining, id);
    if after.Some? && selected != Some(id) {
      var k :| 0 <= k < |voices| && voices[k].id == selected.value;
      assert voices[k] in voices;
      var m :| 0 <= m < |remaining| && remaining[m] == voices[k];
    }
  }

  /** When the identifier is not a built-in one, deleting it from the
      combined list deletes it from the custom part only. */
  lemma DeleteKeepsBuiltins(builtins: seq<Voice>, custom: seq<Voice>, id: string)
    requires !HasId(builtins, id)
    ensures Without(builtins + custom, id) == builtins + Without(custom, id)
  {
    WithoutAppend(builtins, custom, id);
    WithoutAbsent(builtins, id);
  }

  class Selector {
    /** the catalogue `get_builtin_voices` returns, the same on every call */
    const builtins: seq<Voice>
    var voices: seq<Voice>
    var customVoices: seq<Voice>
    var selectedVoiceId: Option<string>
    var initialized: bool
    var previewPlayingVoiceId: Option<string>
    var doraRunning: bool
    /** actions emitted to the screen, oldest first */
    var actions: seq<SelectorAction>

    /** The displayed list is the built-in voices then the custom ones. */
    predicate Listed()
      reads this
    {
      voices == builtins + customVoices
    }

    /** A selection names a displayed voice. */
    predicate SelectionListed()
      reads this
    {
      selectedVoiceId.Some? ==> HasId(voices, selectedVoiceId.value)
    }

    /** The widget before its first event. */
    constructor()
      ensures builtins == BuiltinVoices()
      ensures voices == [] && customVoices == [] && selectedVoiceId.None? && !initialized
      ensures previewPlayingVoiceId.None? && !doraRunning && actions == []
    {
      builtins := BuiltinVoices();
      voices := [];
      customVoices := [];
      selectedVoiceId := None;
      initialized := false;
      previewPlayingVoiceId := None;
      doraRunning := false;
      actions := [];
    }

    /** `selected_voice`: the displayed voice the selection names. */
    function SelectedVoice(): (r: Option<Voice>)
      reads this
      ensures selectedVoiceId.None? ==> r.None?
      ensures r.Some? ==> Some(r.value.id) == selectedVoiceId && r.value in voices
      ensures SelectionListed() ==> (r.Some? <==> selectedVoiceId.Some?)
    {
      match selectedVoiceId
      case None => None
      case Some(id) => FindVoice(voices, id)
    }

    /** `get_voice`. */
    function GetVoice(id: string): (r: Option<Voice>)
      reads this
      ensures r.None? <==> !HasId(voices, id)
      ensures r.Some? ==> r.value.id == id && r.value in voices
    {
      FindVoice(voices, id)
    }

    /** `is_preview_playing`. */
    function IsPreviewPlaying(id: string): (b: bool)
      reads this
      ensures b <==> previewPlayingVoiceId == Some(id)
    {
      previewPlayingVoiceId == Some(id)
    }

    /** `reload_voices`: the built-in voices followed by the stored custom
        voices in file order; the selection is left as it was. */
    method Reload(store: VoiceStore)
      modifies this
      ensures voices == builtins + store.Voices() && customVoices == store.Voices()
      ensures Listed()
      ensures selectedVoiceId == old(selectedVoiceId) && initialized == old(initialized)
      ensures previewPlayingVoiceId == old(previewPlayingVoiceId)
      ensures doraRunning == old(doraRunning) && actions == old(actions)
    {
      customVoices := store.Voices();
      voices := builtins + customVoices;
    }

    /** The first event (or draw): the voices are loaded and the first one
        is selected; later events change nothing here. */
    method Initialize(store: VoiceStore)
      modifies this
      ensures old(initialized) ==>
        voices == old(voices) && customVoices == old(customVoices) && selectedVoiceId == old(selectedVoiceId)
      ensures !old(initialized) ==>
        Listed() && customVoices == store.Voices()
        && selectedVoiceId == (if voices == [] then old(selectedVoiceId) else Some(voices[0].id))
      ensures !old(initialized) && voices != [] ==> SelectionListed()
      ensures initialized
      ensures previewPlayingVoiceId == old(previewPlayingVoiceId)
      ensures doraRunning == old(doraRunning) && actions == old(actions)
    {
      if !initialized {
        Reload(store);
        if voices != [] {
          selectedVoiceId := Some(voices[0].id);
        }
        initialized := true;
      }
    }

    /** `add_custom_voice`: appends to both lists; nothing is checked. */
    method AddCustomVoice(v: Voice)
      modifies this
      ensures customVoices == old(customVoices) + [v] && voices == old(voices) + [v]
      ensures old(Listed()) ==> Listed()
      ensures old(SelectionListed()) ==> SelectionListed()
      ensures selectedVoiceId == old(selectedVoiceId) && initialized == old(initialized)
      ensures previewPlayingVoiceId == old(previewPlayingVoiceId)
      ensures doraRunning == old(doraRunning) && actions == old(actions)
    {
      customVoices := customVoices + [v];
      voices := voices + [v];
      assert old(selectedVoiceId).Some? && old(HasId(voices, selectedVoiceId.value))
        ==> HasId(voices, selectedVoiceId.value) by {
        if old(selectedVoiceId).Some? && old(HasId(voices, selectedVoiceId.value)) {
          var k :| 0 <= k < |old(voices)| && old(voices)[k].id == selectedVoiceId.value;
          assert voices[k] == old(voices)[k];
        }
      }
    }

    /** `delete_custom_voice`: the stored voice is removed first; if that
        fails the widget is untouched and the error is returned. Otherwise
        the identifier leaves both lists, and a selection of the deleted
        voice moves to the first remaining voice. */
    method DeleteCustomVoice(store: VoiceStore, id: string, removeError: Option<string>) returns (r: Result<(), string>)
      modifies this, store
      ensures !HasId(old(store.Voices()), id) ==>
        r == Err("Voice with ID '" + id + "' not found")
      ensures HasId(old(store.Voices()), id) && id in old(store.voiceDirs) && removeError.Some? ==>
        r == Err("Failed to delete voice directory: " + removeError.value)
      ensures r.Err? ==>
        voices == old(voices) && customVoices == old(customVoices)
        && selectedVoiceId == old(selectedVoiceId) && store.file == old(store.file)
      ensures r.Ok? <==> HasId(old(store.Voices()), id) && (id !in old(store.voiceDirs) || removeError.None?)
      ensures r.Ok? ==>
        customVoices == Without(old(customVoices), id) && voices == Without(old(voices), id)
        && selectedVoiceId == SelectionAfterDelete(old(selectedVoiceId), voices, id)
        && store.file == Stored(ConfigVersion, Without(old(store.Voices()), id))
      ensures old(SelectionListed()) ==> SelectionListed()
      ensures old(Listed()) && !HasId(builtins, id) ==> Listed()
      ensures initialized == old(initialized) && previewPlayingVoiceId == old(previewPlayingVoiceId)
      ensures doraRunning == old(doraRunning) && actions == old(actions)
    {
      r := store.Remove(id, removeError);
      if r.Ok? {
        Forget(id);
      }
    }

    /** The widget's half of a delete: the identifier leaves both lists and
        a selection of it moves to the first remaining voice. */
    method Forget(id: string)
      modifies this
      ensures customVoices == Without(old(customVoices), id) && voices == Without(old(voices), id)
      ensures selectedVoiceId == SelectionAfterDelete(old(selectedVoiceId), voices, id)
      ensures old(SelectionListed()) ==> SelectionListed()
      ensures old(Listed()) && !HasId(builtins, id) ==> Listed()
      ensures initialized == old(initialized) && previewPlayingVoiceId == old(previewPlayingVoiceId)
      ensures doraRunning == old(doraRunning) && actions == old(actions)
    {
      ghost var before := voices;
      ghost var selectedBefore := selectedVoiceId;
      ghost var customBefore := customVoices;
      customVoices := VoiceStore.Retain(customVoices, id);
      voices := VoiceStore.Retain(voices, id);
      if selectedVoiceId == Some(id) {
        selectedVoiceId := if voices == [] then None else Some(voices[0].id);
      }
      if selectedBefore.Some? ==> HasId(before, selectedBefore.value) {
        DeleteKeepsSelectionListed(before, selectedBefore, id);
      }
      if before == builtins + customBefore && !HasId(builtins, id) {
        DeleteKeepsBuiltins(builtins, customBefore, id);
      }
    }

    /** `set_dora_running`. */
    method SetDoraRunning(running: bool)
      modifies this
      ensures doraRunning == running
      ensures voices == old(voices) && customVoices == old(customVoices)
      ensures selectedVoiceId == old(selectedVoiceId) && initialized == old(initialized)
      ensures previewPlayingVoiceId == old(previewPlayingVoiceId) && actions == old(actions)
    {
      doraRunning := running;
    }

    /** A tap on the clone button: the clone dialog is requested while the
        dataflow runs, a request to start it otherwise. */
    method CloneClick()
      modifies this
      ensures actions == old(actions) + [if doraRunning then CloneVoiceClicked else RequestStartDora]
      ensures voices == old(voices) && customVoices == old(customVoices)
      ensures selectedVoiceId == old(selectedVoiceId) && initialized == old(initialized)
      ensures previewPlayingVoiceId == old(previewPlayingVoiceId) && doraRunning == old(doraRunning)
    {
      if doraRunning {
        actions := actions + [CloneVoiceClicked];
      } else {
        actions := actions + [RequestStartDora];
      }
    }

    /** A tap on list item `item`, hitting its delete button, its preview
        button and the item itself as the flags say. The delete button
        counts only on a custom voice, and asks for confirmation; the
        preview button toggles that voice's preview and requests it; a tap
        on the item otherwise selects it. An index past the list is
        ignored. */
    method ItemTap(item: nat, onDelete: bool, onPreview: bool, onItem: bool)
      modifies this
      ensures item >= |old(voices)| ==>
        actions == old(actions) && selectedVoiceId == old(selectedVoiceId) && previewPlayingVoiceId == old(previewPlayingVoiceId)
      ensures item < |old(voices)| && onDelete && old(voices)[item].IsCustom() ==>
        actions == old(actions) + [RequestDeleteConfirmation(old(voices)[item].id, old(voices)[item].name)]
        && selectedVoiceId == old(selectedVoiceId) && previewPlayingVoiceId == old(previewPlayingVoiceId)
      ensures item < |old(voices)| && !(onDelete && old(voices)[item].IsCustom()) && onPreview ==>
        var id := old(voices)[item].id;
        actions == old(actions) + [PreviewRequested(id)]
        && previewPlayingVoiceId == (if old(previewPlayingVoiceId) == Some(id) then None else Some(id))
        && selectedVoiceId == old(selectedVoiceId)
      ensures item < |old(voices)| && !(onDelete && old(voices)[item].IsCustom()) && !onPreview ==>
        previewPlayingVoiceId == old(previewPlayingVoiceId)
        && (onItem ==> actions == old(actions) + [VoiceSelected(old(voices)[item].id)]
                       && selectedVoiceId == Some(old(voices)[item].id))
        && (!onItem ==> actions == old(actions) && selectedVoiceId == old(selectedVoiceId))
      ensures old(SelectionListed()) ==> SelectionListed()
      ensures voices == old(voices) && customVoices == old(customVoices)
      ensures initialized == old(initialized) && doraRunning == old(doraRunning)
    {
      if item >= |voices| {
        return;
      }
      var voice := voices[item];
      if onDelete && voice.IsCustom() {
        actions := actions + [RequestDeleteConfirmation(voice.id, voice.name)];
        return;
      }
      if onPreview {
        if previewPlayingVoiceId == Some(voice.id) {
          previewPlayingVoiceId := None;
        } else {
          previewPlayingVoiceId := Some(voice.id);
        }
        actions := actions + [PreviewRequested(voice.id)];
        return;
      }
      if onItem {
        selectedVoiceId := Some(voice.id);
        actions := actions + [VoiceSelected(voice.id)];
      }
    }
  }

  /** Initialisation selects Doubao, the first built-in voice, whatever
      custom voices are stored. */
  lemma InitialSelectionIsDoubao(custom: seq<Voice>)
    ensures (BuiltinVoices() + custom)[0].id == "Doubao"
  {
    assert (BuiltinVoices() + custom)[0] == BuiltinVoices()[0];
  }
}
