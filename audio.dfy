/** The audio side (audio.py): an AudioStreamer opens an input and an output
    stream, then runs a capture loop (read a chunk, G.711 mu-law encode it,
    put it on the outgoing queue) and a playback loop (get from the incoming
    queue, decode, write to the speaker).

    Devices and the codec are abstract. A device is a script of per-iteration
    outcomes; the end of a script is the point where the loop finds
    is_running cleared. The codec (audioop.lin2ulaw / ulaw2lin) is any
    partial map from a fragment and a sample width to the converted
    fragment; a pair it does not map is one on which audioop raises. */
module Audio {
  import opened Base

  /** Frames per buffer, sample rate and channels of both streams. */
  const ChunkFrames := 1024
  const Rate := 8000
  const Channels := 1
  /** Bytes per sample of paInt16, the width handed to the codec. */
  const SampleWidth := 2

  /** (fragment, sample width) to the converted fragment. */
  type Codec = imap<(Bytes, int), Bytes>

  /** What input_stream.read(CHUNK) does in one iteration. */
  datatype ReadResult = Chunk(pcm: Bytes) | ReadFault

  /** A device index from the device lists (None selects the default). */
  type DeviceIndex = Option<int>

  /** An opened PyAudio stream and the parameters it was opened with. */
  datatype Stream = Stream(device: DeviceIndex, rate: int, channels: int, framesPerBuffer: int)

  /** The stream p.open returns in open_streams: Rate samples per second,
      Channels channel, ChunkFrames frames per buffer, on the given device. */
  function Opened(device: DeviceIndex): Stream {
    Stream(device, Rate, Channels, ChunkFrames)
  }

  datatype Direction = Input | Output

  /** The calls close_streams makes on PyAudio. */
  datatype DeviceAction = StopStream(dir: Direction) | CloseStream(dir: Direction) | Terminate

  /** A capture run: the encoded chunks put on the queue, and whether the loop
      ended on an exception. */
  datatype CaptureRun = CaptureRun(frames: seq<Bytes>, faulted: bool)

  /** Why a playback run ended: is_running was found cleared; get() found
      the queue empty (and would block until something arrives); the None
      sentinel was taken; or decode or write raised. */
  datatype PlaybackEnd = Stopped | Starved | SentinelSeen | Faulted

  /** A playback run: the PCM written to the speaker, and how many items it
      took from the incoming queue. */
  datatype PlaybackRun = PlaybackRun(written: seq<Bytes>, consumed: nat, end: PlaybackEnd)

  /** The codec applied at SampleWidth, as both loops call it: None where
      audioop raises. */
  function Apply(codec: Codec, fragment: Bytes): Option<Bytes> {
    if (fragment, SampleWidth) in codec then Some(codec[(fragment, SampleWidth)]) else None
  }

  /** One iteration of the capture loop succeeds: the read returns a chunk
      and the codec accepts it. */
  predicate Captures(x: ReadResult, encode: Codec) {
    x.Chunk? && Apply(encode, x.pcm).Some?
  }

  /** The capture loop over a script of reads (audio.py:63-73): one encoded
      chunk per successful read, in read order, ending at the first failure. */
  function Capture(mic: seq<ReadResult>, encode: Codec): (r: CaptureRun)
    ensures |r.frames| <= |mic|
    ensures forall i :: 0 <= i < |r.frames| ==>
      Captures(mic[i], encode) && Apply(encode, mic[i].pcm) == Some(r.frames[i])
    // a loop that did not fault ran to the end of the script ...
    ensures r.faulted <==> |r.frames| < |mic|
    // ... and one that faulted stopped at the first failing iteration
    ensures r.faulted ==> !Captures(mic[|r.frames|], encode)
    decreases |mic|
  {
    if mic == [] then CaptureRun([], false)
    else if !Captures(mic[0], encode) then CaptureRun([], true)
    else
      var rest := Capture(mic[1..], encode);
      CaptureRun([Apply(encode, mic[0].pcm).value] + rest.frames, rest.faulted)
  }

  /** The playback loop over the incoming queue and a script of write
      outcomes, one per iteration (audio.py:75-87). */
  function Playback(q: seq<Option<Bytes>>, speaker: seq<bool>, decode: Codec): (r: PlaybackRun)
    ensures |r.written| <= r.consumed <= |q| && r.consumed <= |speaker|
    // items are taken in FIFO order and each written frame is the decoding
    // of the item at its position; none of them is the sentinel
    ensures forall i :: 0 <= i < |r.written| ==>
      q[i].Some? && Apply(decode, q[i].value) == Some(r.written[i]) && speaker[i]
    // the sentinel is taken but neither decoded nor written
    ensures r.end == SentinelSeen ==> r.consumed == |r.written| + 1 && q[|r.written|].None?
    // a fault stops the loop at the item that raised
    ensures r.end == Faulted ==>
      && r.consumed == |r.written| + 1
      && q[|r.written|].Some?
      && (Apply(decode, q[|r.written|].value).None? || !speaker[|r.written|])
    ensures r.end == Starved ==> r.consumed == |r.written| == |q| < |speaker|
    ensures r.end == Stopped ==> r.consumed == |r.written| == |speaker|
    decreases |speaker|
  {
    if speaker == [] then PlaybackRun([], 0, Stopped)
    else if q == [] then PlaybackRun([], 0, Starved)
    else if q[0].None? then PlaybackRun([], 1, SentinelSeen)
    else
      match Apply(decode, q[0].value)
      case None => PlaybackRun([], 1, Faulted)
      case Some(pcm) =>
        if !speaker[0] then PlaybackRun([], 1, Faulted)
        else
          var rest := Playback(q[1..], speaker[1..], decode);
          PlaybackRun([pcm] + rest.written, 1 + rest.consumed, rest.end)
  }

  /** The reads a capture loop sees: reading from a stream that was never
      opened raises, so every iteration fails. */
  function Reads(stream: Option<Stream>, mic: seq<ReadResult>): (r: seq<ReadResult>)
    ensures |r| == |mic|
    ensures stream.Some? ==> r == mic
    ensures stream.None? ==> forall i :: 0 <= i < |r| ==> r[i].ReadFault?
  {
    if stream.Some? then mic else seq(|mic|, _ => ReadFault)
  }

  /** The write outcomes a playback loop sees: writing to a stream that was
      never opened raises. */
  function Writes(stream: Option<Stream>, speaker: seq<bool>): (r: seq<bool>)
    ensures |r| == |speaker|
    ensures stream.Some? ==> r == speaker
    ensures stream.None? ==> forall i :: 0 <= i < |r| ==> !r[i]
  {
    if stream.Some? then speaker else seq(|speaker|, _ => false)
  }

  /** The calls close_streams makes (audio.py:112-120). */
  function CloseActions(inputOpen: bool, outputOpen: bool): (acts: seq<DeviceAction>)
    // only the streams that were opened are stopped and closed ...
    ensures StopStream(Input) in acts <==> inputOpen
    ensures CloseStream(Input) in acts <==> inputOpen
    ensures StopStream(Output) in acts <==> outputOpen
    ensures CloseStream(Output) in acts <==> outputOpen
    // ... each stopped right before it is closed, and PyAudio terminated last
    ensures forall i :: 0 <= i < |acts| && acts[i].StopStream? ==>
      i + 1 < |acts| && acts[i + 1] == CloseStream(acts[i].dir)
    ensures acts != [] && acts[|acts| - 1] == Terminate && Terminate !in acts[..|acts| - 1]
  {
    if inputOpen && outputOpen then
      [StopStream(Input), CloseStream(Input), StopStream(Output), CloseStream(Output), Terminate]
    else if inputOpen then [StopStream(Input), CloseStream(Input), Terminate]
    else if outputOpen then [StopStream(Output), CloseStream(Output), Terminate]
    else [Terminate]
  }

  /** The sentinel ends playback: with the speaker working, frames that all
      decode ahead of a None are all played, the None is taken, and what
      stands behind it stays in the queue. */
  lemma {:induction false} SentinelEndsPlayback(
    frames: seq<Bytes>, rest: seq<Option<Bytes>>, speaker: seq<bool>, decode: Codec)
    requires forall i :: 0 <= i < |frames| ==> Apply(decode, frames[i]).Some?
    requires |speaker| > |frames| && forall i :: 0 <= i < |speaker| ==> speaker[i]
    ensures var q := Items(frames) + [None] + rest;
      var r := Playback(q, speaker, decode);
      && r.end == SentinelSeen
      && r.consumed == |frames| + 1
      && q[r.consumed..] == rest
      && |r.written| == |frames|
      && forall i :: 0 <= i < |frames| ==> Apply(decode, frames[i]) == Some(r.written[i])
    decreases |frames|
  {
    var q := Items(frames) + [None] + rest;
    ItemsAt(frames);
    if frames != [] {
      SentinelEndsPlayback(frames[1..], rest, speaker[1..], decode);
      assert q[1..] == Items(frames[1..]) + [None] + rest;
    }
  }

  /** Where a capture run stops: at an index every earlier read of which
      was captured, an exhausted script or a failing read or encode ends it. */
  lemma CaptureStopsAt(mic: seq<ReadResult>, encode: Codec, k: nat)
    requires k <= |Capture(mic, encode).frames| && k <= |mic|
    requires k == |mic| || !Captures(mic[k], encode)
    ensures Capture(mic, encode).frames[..k] == Capture(mic, encode).frames
  {
  }

  /** A read that is captured does not end the run there. */
  lemma CaptureGoesOn(mic: seq<ReadResult>, encode: Codec, k: nat)
    requires k <= |Capture(mic, encode).frames| && k < |mic| && Captures(mic[k], encode)
    ensures k < |Capture(mic, encode).frames|
    ensures Capture(mic, encode).frames[k] == Apply(encode, mic[k].pcm).value
  {
  }

  /** Where a playback run stops: at an index every earlier item of which
      was played, an exhausted script, an empty queue, the sentinel or a
      failing decode or write ends the run, having taken the item there
      (if any). */
  lemma PlaybackStopsAt(q: seq<Option<Bytes>>, speaker: seq<bool>, decode: Codec, k: nat)
    requires k <= |Playback(q, speaker, decode).written| && k <= |speaker| && k <= |q|
    requires k == |speaker| || k == |q| || q[k].None? || Apply(decode, q[k].value).None? || !speaker[k]
    ensures var r := Playback(q, speaker, decode);
      && |r.written| == k
      && r.written[..k] == r.written
      && r.consumed == if k == |speaker| || k == |q| then k else k + 1
  {
  }

  /** An item that decodes and is written does not end the run there. */
  lemma PlaybackGoesOn(q: seq<Option<Bytes>>, speaker: seq<bool>, decode: Codec, k: nat)
    requires k <= |Playback(q, speaker, decode).written| && k < |speaker| && k < |q|
    requires q[k].Some? && Apply(decode, q[k].value).Some? && speaker[k]
    ensures var r := Playback(q, speaker, decode);
      k < |r.written| && r.written[k] == Apply(decode, q[k].value).value
  {
  }

  class AudioStreamer {
    const inputDevice: DeviceIndex
    const outputDevice: DeviceIndex
    const outgoing: Fifo<Bytes>
    const incoming: Fifo<Option<Bytes>>
    /** audioop.lin2ulaw and audioop.ulaw2lin. */
    const encode: Codec
    const decode: Codec
    var inputStream: Option<Stream>
    var outputStream: Option<Stream>
    var isRunning: bool
    /** Every PCM buffer written to the output stream. */
    var played: seq<Bytes>
    /** Every stop, close and terminate call made on PyAudio. */
    var deviceLog: seq<DeviceAction>

    constructor (inputDevice: DeviceIndex, outputDevice: DeviceIndex,
                 outgoing: Fifo<Bytes>, incoming: Fifo<Option<Bytes>>,
                 encode: Codec, decode: Codec)
      ensures this.inputDevice == inputDevice && this.outputDevice == outputDevice
      ensures this.outgoing == outgoing && this.incoming == incoming
      ensures this.encode == encode && this.decode == decode
      ensures inputStream == None && outputStream == None && !isRunning
      ensures played == [] && deviceLog == []
    {
      this.inputDevice, this.outputDevice := inputDevice, outputDevice;
      this.outgoing, this.incoming := outgoing, incoming;
      this.encode, this.decode := encode, decode;
      inputStream, outputStream, isRunning := None, None, false;
      played, deviceLog := [], [];
    }

    /** start: set is_running (the worker thread is not modelled; see Run). */
    method Start()
      modifies this
      ensures isRunning
      ensures inputStream == old(inputStream) && outputStream == old(outputStream)
      ensures played == old(played) && deviceLog == old(deviceLog)
    {
      isRunning := true;
    }

    /** stop: clear is_running, then (after the join) close the streams. */
    method Stop()
      modifies this
      ensures !isRunning
      ensures deviceLog == old(deviceLog) + CloseActions(old(inputStream).Some?, old(outputStream).Some?)
      ensures inputStream == old(inputStream) && outputStream == old(outputStream) && played == old(played)
    {
      isRunning := false;
      CloseStreams();
    }

    /** open_streams: open the input, then the output; the first failure
        skips the rest and clears is_running. */
    method OpenStreams(inputOk: bool, outputOk: bool)
      modifies this
      ensures inputStream == if inputOk then Some(Opened(inputDevice)) else old(inputStream)
      ensures outputStream == if inputOk && outputOk then Some(Opened(outputDevice)) else old(outputStream)
      ensures isRunning == (old(isRunning) && inputOk && outputOk)
      ensures played == old(played) && deviceLog == old(deviceLog)
    {
      if !inputOk {
        isRunning := false;
        return;
      }
      inputStream := Some(Opened(inputDevice));
      if !outputOk {
        isRunning := false;
        return;
      }
      outputStream := Some(Opened(outputDevice));
    }

    /** close_streams: stop and close only the streams that were opened, then
        terminate PyAudio. The stream fields keep their values. */
    method CloseStreams()
      modifies this
      ensures deviceLog == old(deviceLog) + CloseActions(old(inputStream).Some?, old(outputStream).Some?)
      ensures inputStream == old(inputStream) && outputStream == old(outputStream)
      ensures isRunning == old(isRunning) && played == old(played)
    {
      if inputStream.Some? {
        deviceLog := deviceLog + [StopStream(Input), CloseStream(Input)];
      }
      if outputStream.Some? {
        deviceLog := deviceLog + [StopStream(Output), CloseStream(Output)];
      }
      deviceLog := deviceLog + [Terminate];
    }

    /** _send_audio over a script of reads. */
    method SendAudio(mic: seq<ReadResult>)
      modifies outgoing
      ensures outgoing.items == old(outgoing.items)
        + (if isRunning then Capture(Reads(inputStream, mic), encode).frames else [])
    {
      var attempts := Reads(inputStream, mic);
      ghost var whole := Capture(attempts, encode);
      var k := 0;
      while isRunning && k < |attempts|
        invariant k <= |attempts|
        invariant !isRunning ==> k == 0 && outgoing.items == old(outgoing.items)
        invariant isRunning ==> k <= |whole.frames| && outgoing.items == old(outgoing.items) + whole.frames[..k]
      {
        var attempt := attempts[k];
        if attempt.ReadFault? {
          CaptureStopsAt(attempts, encode, k);
          return;
        }
        var compressed := Apply(encode, attempt.pcm);
        if compressed.None? {
          CaptureStopsAt(attempts, encode, k);
          return;
        }
        CaptureGoesOn(attempts, encode, k);
        ExtendPrefix(old(outgoing.items), whole.frames, k);
        outgoing.Put(compressed.value);
        k := k + 1;
      }
      if isRunning {
        CaptureStopsAt(attempts, encode, k);
      }
    }

    /** One iteration of _receive_audio, whose write succeeds iff writeOk:
        take the head of the queue; play it unless it is the sentinel or
        decoding or writing raises. The loop goes on only if it was played. */
    method ReceiveOnce(writeOk: bool) returns (goOn: bool)
      modifies this`played, incoming
      ensures old(incoming.items) == [] ==> !goOn && incoming.items == [] && played == old(played)
      ensures old(incoming.items) != [] ==>
        var head := old(incoming.items)[0];
        && incoming.items == old(incoming.items)[1..]
        && (goOn <==> head.Some? && Apply(decode, head.value).Some? && writeOk)
        && played == old(played) + (if goOn then [Apply(decode, head.value).value] else [])
    {
      var item := incoming.Take();
      if item.None? || item.value.None? {
        return false;    // get() would block, or the sentinel
      }
      var decoded := Apply(decode, item.value.value);
      if decoded.None? || !writeOk {
        return false;
      }
      played := played + [decoded.value];
      return true;
    }

    /** _receive_audio over a script of write outcomes. */
    method ReceiveAudio(speaker: seq<bool>)
      modifies this`played, incoming
      ensures var r := Playback(old(incoming.items), Writes(outputStream, speaker), decode);
        if isRunning then played == old(played) + r.written && incoming.items == old(incoming.items)[r.consumed..]
        else played == old(played) && incoming.items == old(incoming.items)
    {
      var writes := Writes(outputStream, speaker);
      ghost var q := incoming.items;
      ghost var whole := Playback(q, writes, decode);
      var k := 0;
      while isRunning && k < |writes|
        invariant k <= |writes| && k <= |q|
        invariant incoming.items == q[k..]
        invariant !isRunning ==> k == 0 && played == old(played)
        invariant isRunning ==> k <= |whole.written| && played == old(played) + whole.written[..k]
      {
        if k < |q| {
          assert q[k..][0] == q[k] && q[k..][1..] == q[k + 1..];
        }
        var goOn := ReceiveOnce(writes[k]);
        if !goOn {
          PlaybackStopsAt(q, writes, decode, k);
          return;
        }
        PlaybackGoesOn(q, writes, decode, k);
        ExtendPrefix(old(played), whole.written, k);
        k := k + 1;
      }
      if isRunning {
        PlaybackStopsAt(q, writes, decode, k);
      }
    }

    /** _run: open both streams, then both loops (they share no state, so their
        order does not matter here). */
    method Run(inputOk: bool, outputOk: bool, mic: seq<ReadResult>, speaker: seq<bool>)
      modifies this, outgoing, incoming
      // the streams as open_streams leaves them
      ensures inputStream == if inputOk then Some(Opened(inputDevice)) else old(inputStream)
      ensures outputStream == if inputOk && outputOk then Some(Opened(outputDevice)) else old(outputStream)
      ensures isRunning == (old(isRunning) && inputOk && outputOk)
      // a failed open, or a streamer that was stopped, moves no audio
      ensures !(old(isRunning) && inputOk && outputOk) ==>
        outgoing.items == old(outgoing.items) && incoming.items == old(incoming.items) && played == old(played)
      ensures old(isRunning) && inputOk && outputOk ==>
        var r := Playback(old(incoming.items), speaker, decode);
        && outgoing.items == old(outgoing.items) + Capture(mic, encode).frames
        && played == old(played) + r.written
        && incoming.items == old(incoming.items)[r.consumed..]
      ensures deviceLog == old(deviceLog)
    {
      OpenStreams(inputOk, outputOk);
      if isRunning {
        assert Reads(inputStream, mic) == mic && Writes(outputStream, speaker) == speaker;
      }
      SendAudio(mic);
      ReceiveAudio(speaker);
    }
  }
}
