/** The call window (main.py) without its widgets: start_call validates the
    peer's address and port, builds the network streamer and then the audio
    streamer on the window's two queues; stop_call stops both and replaces
    the queues; update_ui_for_call switches the six controls between the
    idle and the in-call layout. Widget state is a set of enable flags; the
    port text arrives already parsed (None where int() raises). */
module VoiceChat {
  import opened Base
  import Network
  import Audio

  const MinPort := 1024
  const MaxPort := 65535

  /** The address the window's network streamer binds: all interfaces. */
  const BindAll := "::"

  /** The errors start_call reports (as an InfoBar) before anything starts. */
  datatype CallError =
    | PortNotInteger         // "Invalid Port: " + int()'s message
    | PortOutOfRange(port: int)  // "Invalid Port: Port must be between 1024 and 65535"
    | EmptyPeerIp            // "Peer IP address cannot be empty."

  /** The checks at the head of start_call (main.py:89-100): the port first,
      then the address. */
  function ValidateCall(peerIp: string, port: Option<int>): (r: Result<Endpoint, CallError>)
    // a call is accepted exactly when the port is in range and the address is non-empty
    ensures r.Ok? <==> port.Some? && MinPort <= port.value <= MaxPort && peerIp != ""
    ensures r.Ok? ==> r.value == Endpoint(peerIp, port.value)
    // a port that is not a number or out of range is reported whatever the address
    ensures port.None? ==> r == Err(PortNotInteger)
    ensures port.Some? && !(MinPort <= port.value <= MaxPort) ==> r == Err(PortOutOfRange(port.value))
    // an empty address is reported only for a valid port
    ensures r == Err(EmptyPeerIp) <==> port.Some? && MinPort <= port.value <= MaxPort && peerIp == ""
  {
    if port.None? then Err(PortNotInteger)
    else if !(MinPort <= port.value <= MaxPort) then Err(PortOutOfRange(port.value))
    else if peerIp == "" then Err(EmptyPeerIp)
    else Ok(Endpoint(peerIp, port.value))
  }

  /** The status the status label shows: the last one emitted, "Idle" at first. */
  function Shown(log: seq<Status>): Status {
    if log == [] then Idle else log[|log| - 1]
  }

  class VoiceChatWindow {
    var audio: Audio.AudioStreamer?
    var network: Network.NetworkStreamer?
    var outgoing: Fifo<Bytes>
    var incoming: Fifo<Option<Bytes>>
    const comm: CommManager
    /** The codec handed to every audio streamer (audioop). */
    const encode: Audio.Codec
    const decode: Audio.Codec
    /** The enabled flags of the six controls. */
    var callEnabled: bool
    var hangupEnabled: bool
    var ipEnabled: bool
    var portEnabled: bool
    var micEnabled: bool
    var speakerEnabled: bool
    /** Every error InfoBar shown. */
    var errors: seq<CallError>

    /** The controls show one of the two layouts: the call button and all
        inputs go together, and hang-up is their opposite. */
    ghost predicate ControlsAgree()
      reads this
    {
      && hangupEnabled == !callEnabled
      && ipEnabled == callEnabled && portEnabled == callEnabled
      && micEnabled == callEnabled && speakerEnabled == callEnabled
    }

    /** The layout for in_call. */
    ghost predicate ControlsFor(inCall: bool)
      reads this
    {
      ControlsAgree() && callEnabled == !inCall
    }

    ghost function StatusShown(): Status
      reads this, comm
    {
      Shown(comm.statusLog)
    }

    constructor (encode: Audio.Codec, decode: Audio.Codec)
      ensures audio == null && network == null
      ensures fresh(outgoing) && fresh(incoming) && fresh(comm)
      ensures outgoing.items == [] && incoming.items == []
      ensures comm.statusLog == [] && comm.peerLog == [] && StatusShown() == Idle
      ensures this.encode == encode && this.decode == decode
      ensures ControlsFor(false) && errors == []
    {
      audio, network := null, null;
      outgoing := new Fifo();
      incoming := new Fifo();
      comm := new CommManager();
      this.encode, this.decode := encode, decode;
      callEnabled, hangupEnabled := true, false;
      ipEnabled, portEnabled, micEnabled, speakerEnabled := true, true, true, true;
      errors := [];
    }

    /** update_ui_for_call (main.py:152-158). */
    method UpdateUiForCall(inCall: bool)
      modifies this
      ensures callEnabled == !inCall && hangupEnabled == inCall
      ensures ipEnabled == !inCall && portEnabled == !inCall
      ensures micEnabled == !inCall && speakerEnabled == !inCall
      ensures ControlsFor(inCall)
      ensures audio == old(audio) && network == old(network)
      ensures outgoing == old(outgoing) && incoming == old(incoming) && errors == old(errors)
    {
      callEnabled := !inCall;
      hangupEnabled := inCall;
      ipEnabled := !inCall;
      portEnabled := !inCall;
      micEnabled := !inCall;
      speakerEnabled := !inCall;
    }

    /** start_call (main.py:88-126). The peer address and port are what the
        two input fields hold; family and bindOk are what socket creation and
        bind do; mic and speaker are the selected devices. */
    method StartCall(peerIp: string, port: Option<int>, family: Network.Family, bindOk: bool,
                     mic: Audio.DeviceIndex, speaker: Audio.DeviceIndex)
      modifies this, comm
      ensures outgoing == old(outgoing) && incoming == old(incoming)
      ensures comm.peerLog == old(comm.peerLog)
      // validation fails: only the error is shown
      ensures ValidateCall(peerIp, port).Err? ==>
        && errors == old(errors) + [ValidateCall(peerIp, port).error]
        && comm.statusLog == old(comm.statusLog)
        && audio == old(audio) && network == old(network)
        && callEnabled == old(callEnabled) && hangupEnabled == old(hangupEnabled)
        && ipEnabled == old(ipEnabled) && portEnabled == old(portEnabled)
        && micEnabled == old(micEnabled) && speakerEnabled == old(speakerEnabled)
      ensures ValidateCall(peerIp, port).Ok? ==> errors == old(errors)
      // the network streamer cannot be built: no audio, back to the idle layout
      ensures ValidateCall(peerIp, port).Ok? && !bindOk ==>
        && comm.statusLog == old(comm.statusLog) + [Connecting, PortInUse(port.value)]
        && audio == old(audio) && network == old(network)
        && ControlsFor(false)
      // success: both streamers run on the window's queues and the call is up
      ensures ValidateCall(peerIp, port).Ok? && bindOk ==>
        && comm.statusLog == old(comm.statusLog) + [Connecting, InCall]
        && StatusShown() == InCall
        && CallUp(Endpoint(peerIp, port.value), family, mic, speaker)
        && CallFresh()
    {
      var checked := ValidateCall(peerIp, port);
      if checked.Err? {
        errors := errors + [checked.error];
        return;
      }
      Connect(checked.value, family, bindOk, mic, speaker);
    }

    /** The state of a call that is up with peer: the network streamer binds
        all interfaces on the peer's port, has the peer set and runs on the
        window's queues; the audio streamer runs on the same queues with the
        selected devices; the controls show the in-call layout. */
    ghost predicate CallUp(peer: Endpoint, family: Network.Family,
                           mic: Audio.DeviceIndex, speaker: Audio.DeviceIndex)
      reads this, network, audio
    {
      && ControlsFor(true)
      && network != null
      && network.localIp == BindAll && network.localPort == peer.port
      && network.boundIp == Network.BindIp(family, BindAll)
      && network.peer == Some(peer) && network.isRunning
      && network.outgoing == outgoing && network.incoming == incoming && network.comm == comm
      && audio != null && audio.isRunning
      && audio.inputDevice == mic && audio.outputDevice == speaker
      && audio.outgoing == outgoing && audio.incoming == incoming
      && audio.encode == encode && audio.decode == decode
    }

    /** A call that has just come up: its network streamer has sent nothing,
        and its audio streamer has opened no stream and played nothing. */
    ghost predicate CallFresh()
      reads this, network, audio
    {
      && network != null && network.sent == []
      && audio != null && audio.inputStream == None && audio.outputStream == None
      && audio.played == [] && audio.deviceLog == []
    }

    /** The part of start_call after validation (main.py:102-126): announce
        the attempt, build the network streamer on the peer's port and, only
        if that worked, start both streamers. */
    method Connect(peer: Endpoint, family: Network.Family, bindOk: bool,
                   mic: Audio.DeviceIndex, speaker: Audio.DeviceIndex)
      modifies this, comm
      ensures outgoing == old(outgoing) && incoming == old(incoming) && errors == old(errors)
      ensures comm.peerLog == old(comm.peerLog)
      ensures !bindOk ==>
        && comm.statusLog == old(comm.statusLog) + [Connecting, PortInUse(peer.port)]
        && audio == old(audio) && network == old(network)
        && ControlsFor(false)
      ensures bindOk ==>
        && comm.statusLog == old(comm.statusLog) + [Connecting, InCall]
        && fresh(network) && fresh(audio)
        && CallUp(peer, family, mic, speaker)
        && CallFresh()
    {
      comm.EmitStatus(Connecting);
      var created := Network.Create(BindAll, peer.port, family, bindOk, outgoing, incoming, comm);
      if created.None? {
        UpdateUiForCall(false);
        return;
      }
      Launch(created.value, peer, family, mic, speaker);
    }

    /** The rest of start_call once the network streamer exists
        (main.py:112-126): set its peer and start it, then create and start
        the audio streamer on the same queues, show the in-call layout and
        announce the call. */
    method Launch(net: Network.NetworkStreamer, peer: Endpoint, family: Network.Family,
                  mic: Audio.DeviceIndex, speaker: Audio.DeviceIndex)
      requires net.localIp == BindAll && net.localPort == peer.port
      requires net.boundIp == Network.BindIp(family, BindAll)
      requires net.outgoing == outgoing && net.incoming == incoming && net.comm == comm
      modifies this, comm, net
      ensures outgoing == old(outgoing) && incoming == old(incoming) && errors == old(errors)
      ensures comm.statusLog == old(comm.statusLog) + [InCall] && comm.peerLog == old(comm.peerLog)
      ensures network == net && fresh(audio)
      ensures CallUp(peer, family, mic, speaker)
      // nothing has been sent, captured or played yet, and no stream is open
      ensures net.sent == old(net.sent)
      ensures audio.inputStream == None && audio.outputStream == None
      ensures audio.played == [] && audio.deviceLog == []
    {
      net.SetPeer(peer.ip, peer.port);
      net.Start();
      var aud := new Audio.AudioStreamer(mic, speaker, outgoing, incoming, encode, decode);
      aud.Start();
      network, audio := net, aud;
      UpdateUiForCall(true);
      comm.EmitStatus(InCall);
    }

    /** stop_call (main.py:128-140): stop whatever streamers exist, give the
        window two new empty queues and return to the idle layout. The
        streamer fields keep their (stopped) objects. */
    method StopCall()
      modifies this, comm, audio, network
      ensures comm.statusLog == old(comm.statusLog) + [Disconnecting, Idle] && StatusShown() == Idle
      ensures comm.peerLog == old(comm.peerLog)
      ensures fresh(outgoing) && fresh(incoming) && outgoing.items == [] && incoming.items == []
      ensures ControlsFor(false)
      ensures audio == old(audio) && network == old(network) && errors == old(errors)
      ensures audio != null ==>
        && !audio.isRunning
        && audio.deviceLog
           == old(audio.deviceLog) + Audio.CloseActions(old(audio.inputStream).Some?, old(audio.outputStream).Some?)
      ensures audio != null ==>
        && audio.inputStream == old(audio.inputStream) && audio.outputStream == old(audio.outputStream)
        && audio.played == old(audio.played)
      ensures network != null ==>
        !network.isRunning && network.peer == old(network.peer) && network.sent == old(network.sent)
    {
      comm.EmitStatus(Disconnecting);
      if audio != null {
        audio.Stop();
      }
      if network != null {
        network.Stop();
      }
      outgoing := new Fifo();
      incoming := new Fifo();
      UpdateUiForCall(false);
      comm.EmitStatus(Idle);
    }
  }
}
