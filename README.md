# A verified model of a peer-to-peer voice link

The program links two hosts by voice over UDP, with no server in between. It has three parts.

- **Network streamer** (network.py). It owns one UDP socket. On each pass of its poll loop it sends one frame from the outgoing queue to the peer. It then reads one datagram and, if it comes from the peer, puts the payload on the incoming queue. With no peer set, the first sender becomes the peer ("first-packet discovery") and a `peer_connected` signal is raised.
- **Audio streamer** (audio.py). It opens a microphone stream and a speaker stream. A capture loop reads chunks, encodes them with G.711 mu-law and queues them. A playback loop takes queued frames, decodes them and writes them to the speaker. A `None` item on the incoming queue tells the playback loop to stop.
- **Call window** (main.py). `start_call` checks the port and the peer address. It then builds the network streamer on the window's two queues and, only if that worked, the audio streamer. `stop_call` stops both streamers and replaces the queues with empty ones.

The model is in four modules, one per concern:

- `Base` (base.dfy): byte strings, endpoints, the shared FIFO `Fifo` (Python's `queue.Queue`), and the signal hub `CommManager`. Each emitted signal is appended to a log. It also holds `Items`, frames as incoming-queue items, which both the network and the audio side use.
- `Network` (network.dfy, modelling network.py): pure functions for one loop iteration (`SendHalf`, `RecvHalf`, `NetStep`) and for a whole run (`RunSpec`), lemmas about runs, and the `NetworkStreamer` class. The class's methods are proved to compute exactly those functions.
- `Audio` (audio.dfy, modelling audio.py): pure functions for the two loops (`Capture`, `Playback`) and for `close_streams` (`CloseActions`), and the `AudioStreamer` class. Its loop methods are proved against those functions.
- `VoiceChat` (voicechat.dfy, modelling main.py): the validation function `ValidateCall` and the `VoiceChatWindow` class, with its enable flags, queues and streamers.

I/O is abstract throughout:

- One iteration of the network loop gets a `Tick`. A tick says whether `sendto` succeeds and what `recvfrom` returns: a datagram with its source, would-block, or an error.
- A microphone is a script of read results. A speaker is a script of write outcomes, one per iteration. The end of a script stands for the point where a loop finds `is_running` cleared.
- The codec (`audioop.lin2ulaw` / `ulaw2lin`) is an arbitrary partial map from a fragment and a sample width to the converted fragment. A pair the map leaves out is one on which audioop raises.
- Socket creation is a `Family`: the dual-stack IPv6 socket or the IPv4 fallback. Bind is a success flag.
- The port text reaches `start_call` already parsed as `Option<int>`. `None` means `int()` raised.

## Model

| member | source | states |
|---|---|---|
| `Base.Fifo.Put` | network.py:82 | `put` appends the item at the tail of the queue |
| `Base.Fifo.Take` | network.py:65 | `get_nowait` on an empty queue changes nothing and yields nothing; otherwise it yields the head and leaves the rest, in order |
| `Base.CommManager.EmitStatus` | main.py:15 | a `status_changed` emission is appended to the status log, and the peer log is untouched |
| `Base.CommManager.EmitPeerConnected` | network.py:78 | a `peer_connected` emission is appended to the peer log, and the status log is untouched |
| `Network.BindIp` | network.py:28-30 | on the IPv4 fallback socket `'::'` becomes `'0.0.0.0'`; every other address, and every address on the IPv6 socket, is used as given; an IPv4 socket is never handed `'::'` |
| `Network.Truncate` | network.py:72 | `recvfrom(4096)` yields at most 4096 bytes, a prefix of the datagram, and the whole datagram when it fits |
| `Network.SendHalf` | network.py:62-68 | the send half touches only the outgoing queue and the send log. Without a peer, or with an empty queue, nothing changes. With a peer it pops exactly the head and sends it to the peer; if `sendto` fails, the frame is lost |
| `Network.RecvHalf` | network.py:70-91 | would-block and errors change nothing, and only a real error ends the loop. A datagram with no peer set adopts its sender, raises `peer_connected` once and queues the payload. With a peer set, the peer never changes, and a payload is queued exactly when its source ip and port equal the peer's |
| `Network.NetStep` | network.py:60-91 | one iteration stays within `StepBounds`: it takes at most the head off the outgoing queue, sends at most one datagram and only when it took a frame, queues at most one payload, never changes an established peer, and announces a peer at most once, when it adopts one |
| `Network.RunSpec` | network.py:60-91 | a whole run stays within `RunBounds`: an established peer stays and is not announced again, and at most one `peer_connected` is raised. The incoming queue and the send log are only appended to. Only a prefix leaves the outgoing queue, and no more datagrams are sent than frames were taken off it |
| `Network.RunAcceptsOnlyPeer` | network.py:80-82 | with peer `p` set, a run appends to the incoming queue exactly the payloads from `p`, unchanged and in arrival order (`Accepted`), up to the first receive error |
| `Network.RunDiscoversFirstSender` | network.py:74-82 | with no peer set, a run adopts the first datagram's sender, announces it exactly once, and then accepts only that sender's payloads; if no datagram arrives, the whole state (queues, send log, peer and announcements) is unchanged |
| `Network.RunSendsOnlyTaken` | network.py:63-68 | in any run, whatever `sendto` does, the datagrams sent are some of the frames taken off the outgoing queue (`SentTaken`). They keep queue order and are all addressed to the final peer |
| `Network.RunTakes` | network.py:60-66 | with a peer set, a run takes one frame off the outgoing queue per iteration (`Iterations`: up to and including the first receive error) until the queue is empty |
| `Network.RunSendsKept` | network.py:63-68 | with a peer set, the send log grows by exactly `Addressed(Kept(outgoing, ticks), peer)`: frame i is taken in iteration i and sent exactly when that iteration's `sendto` succeeds, in queue order |
| `Network.RunSendsInOrder` | network.py:63-66 | with a peer set and every `sendto` succeeding, the datagrams sent are the frames popped from the outgoing queue, in queue order, each addressed to the peer |
| `Network.DeliveredFromPeer` | network.py:81-82 | frames that fit in one receive, arriving from the peer, are accepted as they were sent |
| `Network.Loopback` | test_core.py:66-78 | for two streamers that have each other as peer, with every `sendto` succeeding, the frames A takes from its outgoing queue arrive unchanged and in order on B's incoming queue. When A runs at least as many iterations as it has queued frames, every queued frame arrives |
| `Network.SecondSenderIgnored` | network.py:74-82 | with no peer set, one datagram from 127.0.0.1:9999 and then one from 127.0.0.1:8888 leave only the first payload queued, 9999 as the peer, and one `peer_connected` for 9999 |
| `Network.NetworkStreamer.constructor` | network.py:6-40 | a new streamer keeps its address, port and queues, has no peer, and is not running; its socket is bound to `BindIp(family, local_ip)` |
| `Network.Create` | network.py:26-37 | if bind fails, "Error: Port N in use." is emitted and no streamer results; otherwise a fresh bound streamer is returned |
| `Network.NetworkStreamer.SetPeer` | network.py:42-44 | `set_peer(ip, port)` makes the peer `(ip, port)`, overwriting any earlier peer |
| `Network.NetworkStreamer.Start` | network.py:46-50 | `start` sets `is_running` and leaves the peer alone |
| `Network.NetworkStreamer.Stop` | network.py:52-58 | `stop` clears `is_running` |
| `Network.NetworkStreamer.RunOnce` | network.py:60-91 | one iteration of `_run` changes the peer, the queues, the send log and the peer log exactly as `NetStep` says, and reports whether the loop goes on |
| `Network.NetworkStreamer.Run` | network.py:60-61 | `_run` over a finite sequence of iterations acts as `RunSpec` when `is_running` is set, and does nothing when it is clear |
| `Audio.Capture` | audio.py:63-73 | the capture loop queues exactly one `lin2ulaw(chunk, 2)` per successful iteration, in read order. It stops at the first read or encode failure and produces nothing after it; a loop that did not fault ran to the end of the script |
| `Audio.Playback` | audio.py:75-87 | the playback loop takes items in FIFO order and writes `ulaw2lin(frame, 2)` for each, in order. A `None` is taken but neither decoded nor written, and everything behind it stays queued. A decode or write failure stops the loop at the item that raised. An empty queue (a blocking `get`) or a cleared `is_running` ends the run with nothing taken |
| `Audio.Reads` | audio.py:67 | reading from a stream that was never opened raises in every iteration |
| `Audio.Writes` | audio.py:84 | writing to a stream that was never opened raises in every iteration |
| `Audio.CloseActions` | audio.py:112-120 | `close_streams` stops and closes exactly the streams that were opened, each stopped right before it is closed, and terminates PyAudio last |
| `Audio.SentinelEndsPlayback` | audio.py:79-81 | with decodable frames ahead of a `None` and a working speaker, all the frames are played, the `None` ends the loop, and what stands behind it stays in the queue |
| `Audio.AudioStreamer.constructor` | audio.py:7-35 | a new streamer keeps its devices, queues and codec, has no open stream, and is not running |
| `Audio.AudioStreamer.Start` | audio.py:37-41 | `start` sets `is_running` |
| `Audio.AudioStreamer.Stop` | audio.py:43-48 | `stop` clears `is_running`, then makes the `close_streams` calls |
| `Audio.AudioStreamer.OpenStreams` | audio.py:89-110 | `open_streams` opens the input and then the output. The first failure skips the rest and clears `is_running` |
| `Audio.AudioStreamer.CloseStreams` | audio.py:112-120 | `close_streams` records exactly `CloseActions` for the streams that are open |
| `Audio.AudioStreamer.SendAudio` | audio.py:63-73 | `_send_audio` appends `Capture` of its reads to the outgoing queue when running, and nothing otherwise |
| `Audio.AudioStreamer.ReceiveOnce` | audio.py:77-87 | one iteration takes the head of the queue, if there is one. It plays the decoded frame and goes on exactly when the head is not the sentinel, decodes, and the write succeeds; otherwise nothing is played and the loop ends |
| `Audio.AudioStreamer.ReceiveAudio` | audio.py:75-87 | `_receive_audio` plays `Playback`'s frames and removes from the incoming queue exactly the items `Playback` takes, when running; when not running it does nothing |
| `Audio.AudioStreamer.Run` | audio.py:50-61 | `_run` leaves the streams and `is_running` as `open_streams` does. A failed open, or a streamer that is not running, leaves both queues and the speaker untouched. A running streamer with both streams open captures and plays as `Capture` and `Playback` say |
| `VoiceChat.ValidateCall` | main.py:88-100 | a call is accepted iff the parsed port is in [1024, 65535] and the peer address is non-empty. The port is checked first, so a bad port is reported even when the address is empty |
| `VoiceChat.VoiceChatWindow.constructor` | main.py:19-35 | a new window has no streamers, two empty queues, shows "Idle", and has the call controls enabled and hang-up disabled |
| `VoiceChat.VoiceChatWindow.UpdateUiForCall` | main.py:152-158 | the call button and all four inputs are enabled iff not in a call; hang-up is enabled iff in a call |
| `VoiceChat.VoiceChatWindow.StartCall` | main.py:88-126 | a validation error is only reported: nothing is emitted or started, and the controls stay as they were. Otherwise "Connecting..." comes first. If the network streamer cannot be built, no audio streamer is created, "Error: Port N in use." follows, and the controls return to the idle layout. On success the status is "In Call" and the call is up (`CallUp`): the network streamer binds `'::'` on `local_port == peer_port`, has the peer set and is running on the window's queues; the audio streamer runs on the same queues with the selected devices; the controls show the in-call layout. The new streamers have sent nothing, opened no stream and played nothing (`CallFresh`) |
| `VoiceChat.VoiceChatWindow.Connect` | main.py:102-117 | after validation: "Connecting..." is emitted first. A bind failure leaves both streamer fields as they were and restores the idle layout. Otherwise two fresh streamers are up as `CallUp` says, have done nothing yet (`CallFresh`), and "In Call" is emitted last |
| `VoiceChat.VoiceChatWindow.Launch` | main.py:112-126 | given a streamer bound to `'::'` on the peer's port: the peer is set, both streamers run on the window's queues, the in-call layout is shown, and exactly "In Call" is emitted. The network streamer's send log is unchanged; the new audio streamer has no open stream and has played and closed nothing |
| `VoiceChat.VoiceChatWindow.StopCall` | main.py:128-140 | "Disconnecting..." and then "Idle" are emitted. Whatever streamers exist are stopped, the audio streamer closing its open streams. The audio streamer's stream fields and played frames, and the network streamer's peer and send log, are unchanged. The window gets two new empty queues and the idle layout |

## Left out

- Qt widgets, signal dispatch across threads, the InfoBar helpers (main.py:160-164), and the `update_status` and `on_peer_connected` slots (main.py:142-151): signals are logs, the status label is the last status emitted, and error InfoBars are a list of `CallError`.
- `closeEvent` (main.py:166-169) only calls `stop_call`, which is `VoiceChat.VoiceChatWindow.StopCall`.
- Device enumeration (main.py:78-86): the selected devices are parameters of `StartCall`.
- Stream opening parameters: an open stream records its device index, `Rate`, `Channels` and `ChunkFrames` (`Audio.Opened`). The sample format paInt16 appears only as the codec width `SampleWidth`, and the `input=`/`output=` flag only as which field holds the stream.
- The G.711 mu-law conversion itself, which lives in audioop and is not part of this model: the codec is an arbitrary partial map, so no quantization bound is stated.
- Socket creation, the dual-stack option, `setblocking` and `close`: creation is the `Family` parameter, and bind is a success flag.
- Datagrams over 4096 bytes: `Truncate` keeps the first 4096 bytes, as recvfrom does on Linux. On platforms where recvfrom raises instead, the model does not follow.
- Threads, `join` (with or without a timeout), `time.sleep` and `daemon`: each loop runs sequentially over a finite script. A stop is observed only at an iteration boundary, which is where the end of a script stands.
- A playback loop blocked in `get()` on an empty queue: the model ends the run there with end `Starved` and takes nothing.
- Nothing in the program enqueues the `None` sentinel, and the model does not either. The type of the incoming queue admits `None`, and the playback loop handles it.
- `Base.Fifo.Put`: an unbounded `queue.Queue` never raises on `put`, so the "exception in put" path of the capture loop is not modelled.
- `VoiceChat.VoiceChatWindow.StartCall`: only a bind failure is modelled as the network setup raising. A failure of `threading.Thread.start` is not.
- IPv4-mapped address forms on the dual-stack socket: endpoint addresses are compared as opaque strings, exactly as network.py:81 does.
- A receive error raised after `stop` has cleared `is_running` is not treated as an error by the source. The loop then ends at its next check, so in a sequential run it ends either way, and the model ends the loop on every receive error.
- `print` logging, and the timing-based harness in test_core.py. The harness's assertion is the `Network.Loopback` lemma.
