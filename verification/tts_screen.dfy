/** The speech screen's own state: the generation status shown by the
    player bar, the samples received from the synthesis node and their
    rate, and the playback clock; together with what the screen hands on,
    the prompts it sends to the dataflow and the commands it sends to the
    audio player. */
module TtsScreen {
  import opened Wrappers
  import opened VoiceData
  import opened AudioPlayer
  import PromptEncoder
  import Wav

  /** A batch of samples drained from the dataflow bridge. */
  datatype Chunk = Chunk(samples: seq<real>, sampleRate: Wav.U32)

  /** The rate assumed before any audio arrives (GPT-SoVITS output). */
  const DefaultRate: Wav.U32 := 32000
  const SendFailure: string := "Failed to send prompt"
  /** Period of the polling timer, by which the playback clock advances. */
  const Tick: real := 0.1

  /** All samples of the chunks, in delivery order. */
  function Concat(chunks: seq<Chunk>): (s: seq<real>)
    ensures (s == []) == (forall k :: 0 <= k < |chunks| ==> chunks[k].samples == [])
  {
    if chunks == [] then []
    else Concat(chunks[..|chunks| - 1]) + chunks[|chunks| - 1].samples
  }

  /** Draining in two goes stores the same samples as draining at once. */
  lemma {:induction false} ConcatAppend(a: seq<Chunk>, b: seq<Chunk>)
    ensures Concat(a + b) == Concat(a) + Concat(b)
  {
    if b != [] {
      assert (a + b)[..|a + b| - 1] == a + b[..|b| - 1];
      ConcatAppend(a, b[..|b| - 1]);
    } else {
      assert a + b == a;
    }
  }

  /** The rate after a drain: the last chunk's, or the old one. */
  function LastRate(rate: Wav.U32, chunks: seq<Chunk>): Wav.U32
  {
    if chunks == [] then rate else chunks[|chunks| - 1].sampleRate
  }

  /** Playback resumes instead of restarting when the clock stands more
      than a tick into the clip and more than a tick before its end. A
      zero rate makes the clip's length infinite. */
  predicate IsResuming(time: real, count: nat, rate: Wav.U32)
  {
    time > Tick && (rate == 0 || time < count as real / rate as real - Tick)
  }

  /** The samples handed to the player when playback starts: all of them,
      or, when resuming, those from the clock's position on; nothing when
      that position is past the end. */
  function PlayedFrom(time: real, samples: seq<real>, rate: Wav.U32): (r: Option<seq<real>>)
    ensures !IsResuming(time, |samples|, rate) ==> r == Some(samples)
    ensures r.Some? ==> |r.value| <= |samples| && r.value == samples[|samples| - |r.value|..]
  {
    if !IsResuming(time, |samples|, rate) then Some(samples)
    else
      var index := (time * rate as real).Floor;
      if index < |samples| then Some(samples[index..]) else None
  }

  /** Resuming at a clock of t seconds plays the clip from sample
      floor(t·rate): the samples before it are the ones already heard. */
  lemma ResumeSkipsPlayed(time: real, samples: seq<real>, rate: Wav.U32)
    requires IsResuming(time, |samples|, rate) && PlayedFrom(time, samples, rate).Some?
    ensures var heard := |samples| - |PlayedFrom(time, samples, rate).value|;
      heard == (time * rate as real).Floor
      && samples[..heard] + PlayedFrom(time, samples, rate).value == samples
  {
    var index := (time * rate as real).Floor;
    assert time * rate as real >= 0.0;
    assert samples[..index] + samples[index..] == samples;
  }

  class Screen {
    var status: TTSStatus
    var samples: seq<real>
    var sampleRate: Wav.U32
    /** seconds of the stored clip already played */
    var playingTime: real
    /** whether the audio player could be created */
    const hasPlayer: bool
    /** commands sent to the audio player, oldest first */
    var playerCalls: seq<AudioCommand>
    /** prompts the dataflow accepted, oldest first */
    var sent: seq<string>

    /** Playback only ever runs over a stored clip. */
    predicate Valid()
      reads this
    {
      status == Playing ==> samples != []
    }

    /** The screen after its first event: idle, nothing stored, the
        default rate. */
    constructor(hasPlayer: bool)
      ensures status == Idle && samples == [] && sampleRate == DefaultRate && playingTime == 0.0
      ensures this.hasPlayer == hasPlayer && playerCalls == [] && sent == []
      ensures Valid()
    {
      status := Idle;
      samples := [];
      sampleRate := DefaultRate;
      playingTime := 0.0;
      this.hasPlayer := hasPlayer;
      playerCalls := [];
      sent := [];
    }

    /** The generate button. Nothing happens while the dataflow is not
        running or the text is empty. Otherwise the stored clip is
        dropped, the status becomes Generating and the prompt for the
        selected voice (Luo Xiang when none is) is logged, then sent; a
        refused send turns the status into an error. The player is reset
        either way. `preview` is the prompt as logged, cut to at most 150
        bytes. With `asWritten` the cut is the screen's own byte slice,
        which panics when byte 150 falls inside a character: the
        application ends there (`panicked`), after the clip was dropped
        and before anything is sent or the player is reset. Otherwise the
        cut is made at the last character boundary. */
    method GenerateSpeech(running: bool, text: string, selected: Option<string>,
                          info: Option<Voice>, voicesDir: string, sendOk: bool, asWritten: bool)
      returns (preview: Option<string>, panicked: bool)
      requires Valid()
      modifies this
      ensures Valid()
      ensures !running || text == [] ==>
        status == old(status) && samples == old(samples) && sampleRate == old(sampleRate)
        && playerCalls == old(playerCalls) && sent == old(sent) && preview == None && !panicked
      ensures running && text != [] ==>
        var prompt := PromptEncoder.EncodePrompt(info, selected.GetOr(PromptEncoder.DefaultSelection), text, voicesDir);
        samples == [] && sampleRate == DefaultRate
        && panicked == (asWritten && PromptEncoder.PreviewAsWritten(prompt).Err?)
        && (panicked ==>
              status == Generating && sent == old(sent) && playerCalls == old(playerCalls) && preview == None)
        && (!panicked ==>
              status == (if sendOk then Generating else Error(SendFailure))
              && sent == old(sent) + (if sendOk then [prompt] else [])
              && playerCalls == old(playerCalls) + (if hasPlayer then [Reset] else [])
              && preview == Some(PromptEncoder.Preview(prompt)))
      ensures playingTime == old(playingTime)
    {
      panicked := false;
      if !running || text == [] {
        return None, false;
      }
      var voiceId := selected.GetOr(PromptEncoder.DefaultSelection);
      samples := [];
      sampleRate := DefaultRate;
      status := Generating;
      var prompt := PromptEncoder.EncodePrompt(info, voiceId, text, voicesDir);
      if asWritten {
        var cut := PromptEncoder.PreviewAsWritten(prompt);
        if cut.Err? {
          return None, true;
        }
        PromptEncoder.PreviewAgrees(prompt);
        preview := Some(cut.value);
      } else {
        preview := Some(PromptEncoder.Preview(prompt));
      }
      if sendOk {
        sent := sent + [prompt];
      } else {
        status := Error(SendFailure);
      }
      if hasPlayer {
        playerCalls := playerCalls + [Reset];
      }
    }

    /** The timer's drain of the bridge: every chunk's samples are
        appended in order and the last chunk's rate is kept; a non-empty
        drain ends generation. */
    method ReceiveAudio(running: bool, chunks: seq<Chunk>)
      requires Valid()
      modifies this
      ensures Valid()
      ensures running && chunks != [] ==>
        samples == old(samples) + Concat(chunks) && sampleRate == LastRate(old(sampleRate), chunks)
        && status == (if old(status) == Generating then Ready else old(status))
      ensures !running || chunks == [] ==>
        samples == old(samples) && sampleRate == old(sampleRate) && status == old(status)
      ensures playingTime == old(playingTime) && playerCalls == old(playerCalls) && sent == old(sent)
    {
      if !running || chunks == [] {
        return;
      }
      var i := 0;
      while i < |chunks|
        invariant 0 <= i <= |chunks|
        invariant samples == old(samples) + Concat(chunks[..i])
        invariant sampleRate == LastRate(old(sampleRate), chunks[..i])
        invariant status == old(status) && playingTime == old(playingTime)
        invariant playerCalls == old(playerCalls) && sent == old(sent)
      {
        assert chunks[..i + 1][..i] == chunks[..i];
        samples := samples + chunks[i].samples;
        sampleRate := chunks[i].sampleRate;
        i := i + 1;
      }
      assert chunks[..i] == chunks;
      if status == Generating {
        status := Ready;
      }
    }

    /** The timer's playback check: a finished player turns Playing back
        into Ready and rewinds the clock; a still-playing one advances the
        clock by a tick; a paused one changes nothing. */
    method PollPlayback(finished: bool, playing: bool)
      requires Valid()
      modifies this
      ensures Valid()
      ensures old(status) == Playing && hasPlayer && finished ==> status == Ready && playingTime == 0.0
      ensures old(status) == Playing && hasPlayer && !finished && playing ==>
        status == Playing && playingTime == old(playingTime) + Tick
      ensures !(old(status) == Playing && hasPlayer && (finished || playing)) ==>
        status == old(status) && playingTime == old(playingTime)
      ensures samples == old(samples) && sampleRate == old(sampleRate)
      ensures playerCalls == old(playerCalls) && sent == old(sent)
    {
      if status == Playing && hasPlayer {
        if finished {
          status := Ready;
          playingTime := 0.0;
        } else if playing {
          playingTime := playingTime + Tick;
        }
      }
    }

    /** The play/pause button: Playing pauses into Ready; a stored clip
        starts playing, from the clock's position when resuming and from
        the start otherwise; with nothing stored nothing changes. */
    method TogglePlayback()
      requires Valid()
      modifies this
      ensures Valid()
      ensures old(status) == Playing ==>
        status == Ready && playingTime == old(playingTime)
        && playerCalls == old(playerCalls) + (if hasPlayer then [Pause] else [])
      ensures old(status) != Playing && old(samples) != [] ==>
        status == Playing
        && playerCalls == old(playerCalls) +
             (if !hasPlayer then []
              else match PlayedFrom(old(playingTime), old(samples), old(sampleRate))
                   case None => [Reset]
                   case Some(played) => [Reset, Write(played)])
        && playingTime == (if hasPlayer && !IsResuming(old(playingTime), |old(samples)|, old(sampleRate))
                           then 0.0 else old(playingTime))
      ensures old(status) != Playing && old(samples) == [] ==>
        status == old(status) && playerCalls == old(playerCalls) && playingTime == old(playingTime)
      ensures samples == old(samples) && sampleRate == old(sampleRate) && sent == old(sent)
    {
      if status == Playing {
        if hasPlayer {
          playerCalls := playerCalls + [Pause];
        }
        status := Ready;
      } else if samples != [] {
        if hasPlayer {
          playerCalls := playerCalls + [Reset];
          if IsResuming(playingTime, |samples|, sampleRate) {
            var index := (playingTime * sampleRate as real).Floor;
            if index < |samples| {
              playerCalls := playerCalls + [Write(samples[index..])];
            }
          } else {
            playerCalls := playerCalls + [Write(samples)];
            playingTime := 0.0;
          }
        }
        status := Playing;
      }
    }

    /** The stop button: the player is reset and Playing becomes Ready.
        Only the time label is cleared; the clock keeps its value. */
    method StopPlayback()
      requires Valid()
      modifies this
      ensures Valid()
      ensures status == (if old(status) == Playing then Ready else old(status))
      ensures playerCalls == old(playerCalls) + (if hasPlayer then [Reset] else [])
      ensures playingTime == old(playingTime)
      ensures samples == old(samples) && sampleRate == old(sampleRate) && sent == old(sent)
    {
      if hasPlayer {
        playerCalls := playerCalls + [Reset];
      }
      if status == Playing {
        status := Ready;
      }
    }
  }

  /** Dividing a strict bound by a positive factor. */
  lemma BelowQuotient(a: real, r: real, n: real)
    requires r > 0.0 && a * r < n
    ensures a < n / r
  {
    var q := n / r;
    assert q * r == n;
    assert (a - q) * r < 0.0;
  }

  /** Since stopping keeps the clock, a clip stopped more than a tick in
      and more than a tick before its end resumes from there when played
      again instead of starting over. */
  lemma StopThenPlayResumes(time: real, samples: seq<real>, rate: Wav.U32)
    requires rate > 0 && time > Tick && time * rate as real >= 1.0
    requires (time + Tick) * rate as real < |samples| as real
    ensures IsResuming(time, |samples|, rate)
    ensures PlayedFrom(time, samples, rate).Some?
    ensures PlayedFrom(time, samples, rate) != Some(samples)
  {
    var r := rate as real;
    var n := |samples| as real;
    BelowQuotient(time + Tick, r, n);
    var index := (time * r).Floor;
    assert index as real <= time * r < n;
    assert 1 <= index;
    assert |PlayedFrom(time, samples, rate).value| < |samples|;
  }
}
