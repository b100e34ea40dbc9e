/** Playback of generated speech: a ring buffer of samples that keeps the
    newest ones when it overflows, and the audio thread, which applies the
    commands the screen sends and drains the buffer from the output
    device's callback. */
module AudioPlayer {

  /** Commands sent to the audio thread, in channel order. */
  datatype AudioCommand = Write(samples: seq<real>) | Reset | Pause | Resume | Stop

  function Min(a: nat, b: nat): nat { if a <= b then a else b }

  /** What a ring of capacity `n` holds once `s` has been written into it
      from empty: the last `n` elements of `s`, or all of them. */
  function Newest(s: seq<real>, n: nat): (r: seq<real>)
    ensures |r| == Min(|s|, n)
  {
    if |s| <= n then s else s[|s| - n..]
  }

  /** Writing one more element after a prefix keeps the newest window of
      the whole: the ring may be filled sample by sample. */
  lemma NewestSnoc(s: seq<real>, x: real, n: nat)
    requires n > 0
    ensures Newest(Newest(s, n) + [x], n) == Newest(s + [x], n)
  {
    if |s| > n {
      assert Newest(s, n) + [x] == (s + [x])[|s| - n..];
    }
  }

  /** The write loop's step: the window after `i` samples, extended by
      the next one, is the window after `i + 1`. */
  lemma NewestStep(start: seq<real>, samples: seq<real>, i: nat, n: nat)
    requires n > 0 && i < |samples|
    ensures Newest(Newest(start + samples[..i], n) + [samples[i]], n) == Newest(start + samples[..i + 1], n)
  {
    NewestSnoc(start + samples[..i], samples[i], n);
    assert start + samples[..i + 1] == start + samples[..i] + [samples[i]];
  }

  /** `k % n` for `0 <= k < 2n`, as a subtraction. */
  function Wrap(k: nat, n: nat): nat
    requires k < 2 * n
  {
    if k < n then k else k - n
  }

  lemma ModWrap(k: nat, n: nat)
    requires 0 < n && k < 2 * n
    ensures k % n == Wrap(k, n)
  {
    if k >= n {
      assert k == (k - n) + n;
    }
  }

  /** The `count` elements of the circular storage `b` starting at `start`. */
  function Window(b: seq<real>, start: nat, count: nat): (w: seq<real>)
    requires start < |b| && count <= |b|
    ensures |w| == count
  {
    seq(count, j requires 0 <= j < count => b[Wrap(start + j, |b|)])
  }

  /** Writing into the free slot after a partial window extends it. */
  lemma WindowPush(b: seq<real>, start: nat, count: nat, x: real)
    requires start < |b| && count < |b|
    ensures Window(b[Wrap(start + count, |b|) := x], start, count + 1) == Window(b, start, count) + [x]
  {
    var w := Wrap(start + count, |b|);
    var lhs := Window(b[w := x], start, count + 1);
    var rhs := Window(b, start, count) + [x];
    forall j | 0 <= j < count + 1
      ensures lhs[j] == rhs[j]
    {
      if j < count {
        assert Wrap(start + j, |b|) != w;
      }
    }
  }

  /** Writing over the oldest slot of a full window and moving the start
      past it drops the oldest element and appends the new one. */
  lemma WindowOverwrite(b: seq<real>, start: nat, x: real)
    requires start < |b|
    ensures Window(b[start := x], Wrap(start + 1, |b|), |b|) == Window(b, start, |b|)[1..] + [x]
  {
    var n := |b|;
    var next := Wrap(start + 1, n);
    var lhs := Window(b[start := x], next, n);
    var rhs := Window(b, start, n)[1..] + [x];
    forall j | 0 <= j < n
      ensures lhs[j] == rhs[j]
    {
      if j < n - 1 {
        assert Wrap(next + j, n) == Wrap(start + (j + 1), n) != start;
      } else {
        assert Wrap(next + j, n) == start;
      }
    }
  }

  /** Reading the oldest element of a non-empty window leaves the rest. */
  lemma WindowPop(b: seq<real>, start: nat, count: nat)
    requires start < |b| && 0 < count <= |b|
    ensures Window(b, start, count)[0] == b[start]
    ensures Window(b, Wrap(start + 1, |b|), count - 1) == Window(b, start, count)[1..]
  {
    var n := |b|;
    var next := Wrap(start + 1, n);
    var lhs := Window(b, next, count - 1);
    var rhs := Window(b, start, count)[1..];
    assert Window(b, start, count)[0] == b[Wrap(start + 0, n)];
    forall j | 0 <= j < count - 1
      ensures lhs[j] == rhs[j]
    {
      assert Wrap(next + j, n) == Wrap(start + (j + 1), n);
    }
  }

  class CircularAudioBuffer {
    const buffer: array<real>
    const bufferSize: nat
    var writePos: nat
    var readPos: nat
    var available: nat

    /** The buffer's standing invariant: positions inside the storage, no
        more samples than slots, and the write position just past the
        last available sample, that is `(readPos + available) % bufferSize`. */
    predicate Valid()
      reads this
    {
      buffer.Length == bufferSize && 0 < bufferSize
      && writePos < bufferSize && readPos < bufferSize && available <= bufferSize
      && writePos == Wrap(readPos + available, bufferSize)
    }

    /** The samples waiting to be played, oldest first. */
    function Contents(): (c: seq<real>)
      reads this, buffer
      requires Valid()
      ensures |c| == available
    {
      Window(buffer[..], readPos, available)
    }

    /** A buffer of `size` zeroed slots with nothing to play. */
    constructor(size: nat)
      requires size > 0
      ensures Valid() && bufferSize == size && fresh(buffer)
      ensures Contents() == []
      ensures forall k :: 0 <= k < size ==> buffer[k] == 0.0
    {
      buffer := new real[size](_ => 0.0);
      bufferSize := size;
      writePos, readPos, available := 0, 0, 0;
    }

    function Available(): (n: nat)
      reads this, buffer
      requires Valid()
      ensures n == |Contents()|
    {
      available
    }

    /** Appends every sample, overwriting the oldest when full; reports
        every sample as written. */
    method WriteSamples(samples: seq<real>) returns (written: nat)
      requires Valid()
      modifies this, buffer
      ensures Valid()
      ensures written == |samples|
      ensures Contents() == Newest(old(Contents()) + samples, bufferSize)
    {
      ghost var start := Contents();
      written := 0;
      var i := 0;
      while i < |samples|
        invariant Valid() && 0 <= i <= |samples| && written == i
        invariant Contents() == Newest(start + samples[..i], bufferSize)
      {
        ghost var before := Contents();
        Store(samples[i]);
        assert Contents() == Newest(before + [samples[i]], bufferSize);
        NewestStep(start, samples, i, bufferSize);
        written := written + 1;
        i := i + 1;
      }
      assert samples[..i] == samples;
    }

    /** The body of the write loop: the sample goes to the write position;
        when the buffer is full the read position moves past the sample it
        overwrote. */
    method Store(sample: real)
      requires Valid()
      modifies this, buffer
      ensures Valid()
      ensures Contents() == Newest(old(Contents()) + [sample], bufferSize)
    {
      ghost var b := buffer[..];
      ghost var c := Contents();
      var w := writePos;
      ModWrap(w + 1, bufferSize);
      buffer[w] := sample;
      assert buffer[..] == b[w := sample];
      if available < bufferSize {
        WindowPush(b, readPos, available, sample);
        writePos := (w + 1) % bufferSize;
        available := available + 1;
        assert Contents() == c + [sample];
      } else {
        ModWrap(readPos + 1, bufferSize);
        WindowOverwrite(b, readPos, sample);
        writePos := (w + 1) % bufferSize;
        readPos := (readPos + 1) % bufferSize;
        assert Contents() == c[1..] + [sample];
        assert (c + [sample])[1..] == c[1..] + [sample];
      }
    }

    /** Fills `output` with the oldest samples, then silence; returns how
        many samples it took. */
    method Read(output: array<real>) returns (count: nat)
      requires Valid() && output != buffer
      modifies this, output
      ensures Valid()
      ensures count == Min(output.Length, old(available))
      ensures output[..count] == old(Contents())[..count]
      ensures forall k :: count <= k < output.Length ==> output[k] == 0.0
      ensures Contents() == old(Contents())[count..]
    {
      ghost var start := Contents();
      count := 0;
      var k := 0;
      while k < output.Length
        invariant Valid() && 0 <= k <= output.Length
        invariant count == Min(k, |start|)
        invariant Contents() == start[count..]
        invariant output[..count] == start[..count]
        invariant forall m :: count <= m < k ==> output[m] == 0.0
      {
        if available > 0 {
          var sample := Take();
          output[k] := sample;
          count := count + 1;
          assert output[..count] == output[..count - 1] + [sample];
        } else {
          output[k] := 0.0;
        }
        k := k + 1;
      }
    }

    /** The body of the read loop for a non-empty buffer: the sample at the
        read position, which then moves on. */
    method Take() returns (sample: real)
      requires Valid() && available > 0
      modifies this
      ensures Valid()
      ensures sample == old(Contents())[0] && Contents() == old(Contents())[1..]
    {
      WindowPop(buffer[..], readPos, available);
      ModWrap(readPos + 1, bufferSize);
      sample := buffer[readPos];
      readPos := (readPos + 1) % bufferSize;
      available := available - 1;
    }

    /** Empties the buffer without touching its storage. */
    method Reset()
      requires Valid()
      modifies this
      ensures Valid()
      ensures writePos == 0 && readPos == 0 && available == 0
      ensures Contents() == []
      ensures buffer[..] == old(buffer[..])
    {
      writePos, readPos, available := 0, 0, 0;
    }
  }

  /** The audio thread: the ring buffer, the playing flag the output
      callback obeys and the "playback finished" signal the screen polls. */
  class AudioThread {
    const ring: CircularAudioBuffer
    const sampleRate: nat
    var playing: bool
    var finishedSignal: bool

    predicate Valid()
      reads this, ring
    {
      ring.Valid()
    }

    /** A stopped thread with an empty buffer of `bufferSeconds` of audio. */
    constructor(sampleRate: nat, bufferSeconds: nat)
      requires sampleRate * bufferSeconds > 0
      ensures Valid() && fresh(ring) && fresh(ring.buffer)
      ensures this.sampleRate == sampleRate && ring.bufferSize == sampleRate * bufferSeconds
      ensures !playing && !finishedSignal && ring.Contents() == []
    {
      ring := new CircularAudioBuffer(sampleRate * bufferSeconds);
      this.sampleRate := sampleRate;
      playing := false;
      finishedSignal := false;
    }

    /** One command from the channel; false when the thread stops. A write
        starts playback once more than half a second is buffered; a reset
        stops it and empties the buffer; pause and resume only flip the
        flag. */
    method HandleCommand(cmd: AudioCommand) returns (running: bool)
      requires Valid()
      modifies this, ring, ring.buffer
      ensures Valid()
      ensures running == !cmd.Stop?
      ensures finishedSignal == old(finishedSignal)
      ensures cmd.Write? ==>
        ring.Contents() == Newest(old(ring.Contents()) + cmd.samples, ring.bufferSize)
        && playing == (old(playing) || |ring.Contents()| > sampleRate / 2)
      ensures cmd.Reset? ==> !playing && ring.Contents() == []
      ensures cmd.Pause? ==> !playing && ring.Contents() == old(ring.Contents())
      ensures cmd.Resume? ==> playing && ring.Contents() == old(ring.Contents())
      ensures cmd.Stop? ==> playing == old(playing) && ring.Contents() == old(ring.Contents())
    {
      running := true;
      match cmd
      case Write(samples) =>
        var _ := ring.WriteSamples(samples);
        if ring.Available() > sampleRate / 2 {
          playing := true;
        }
      case Reset =>
        playing := false;
        ring.Reset();
      case Pause =>
        playing := false;
      case Resume =>
        playing := true;
      case Stop =>
        running := false;
    }

    /** One output callback asking for `needed` source samples. While
        playing it takes up to `needed` samples; when the buffer yields
        none, playback stops and the finished signal is raised. */
    method Callback(needed: nat) returns (readCount: nat)
      requires Valid()
      modifies this, ring
      ensures Valid()
      ensures readCount == if old(playing) then Min(needed, |old(ring.Contents())|) else 0
      ensures ring.Contents() == old(ring.Contents())[readCount..]
      ensures playing == (old(playing) && readCount > 0)
      ensures finishedSignal == (old(finishedSignal) || (old(playing) && readCount == 0))
    {
      readCount := 0;
      if playing {
        ghost var before := ring.Contents();
        var chunk := new real[needed](_ => 0.0);
        readCount := ring.Read(chunk);
        assert readCount == Min(needed, |before|) && ring.Contents() == before[readCount..];
        if readCount == 0 {
          playing := false;
          finishedSignal := true;
        }
      }
    }

    /** The screen's poll: reports and clears the finished signal. */
    method CheckPlaybackFinished() returns (finished: bool)
      modifies this
      ensures finished == old(finishedSignal) && !finishedSignal
      ensures playing == old(playing)
    {
      finished := finishedSignal;
      finishedSignal := false;
    }
  }

  /** Writing `a` and then `b` leaves the same newest window as writing
      `a + b` at once: the buffer may be fed in batches of any size. */
  lemma {:induction false} NewestBatches(a: seq<real>, b: seq<real>, n: nat)
    ensures Newest(Newest(a, n) + b, n) == Newest(a + b, n)
    decreases |b|
  {
    if n == 0 {
    } else if b == [] {
      assert Newest(a, n) + b == Newest(a, n) && a + b == a;
    } else {
      var init, x := b[..|b| - 1], b[|b| - 1];
      assert b == init + [x];
      assert Newest(a, n) + b == (Newest(a, n) + init) + [x];
      assert a + b == (a + init) + [x];
      NewestSnoc(Newest(a, n) + init, x, n);
      NewestBatches(a, init, n);
      NewestSnoc(a + init, x, n);
    }
  }
}
