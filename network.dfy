/** The UDP transport (network.py): one NetworkStreamer owns one socket,
    drains the outgoing queue to the peer, and feeds datagrams that come from
    the peer into the incoming queue. With no peer set, the sender of the
    first datagram becomes the peer ("first-packet discovery").

    The socket is abstract: every iteration of the poll loop is driven by a
    Tick, which says whether sendto succeeds and what recvfrom returns. */
module Network {
  import opened Base

  /** recvfrom(4096): the largest payload one receive returns. */
  const MaxRecv := 4096

  const Ipv6Any := "::"
  const Ipv4Any := "0.0.0.0"

  /** The socket that was created: dual-stack IPv6, or the IPv4 fallback. */
  datatype Family = Inet6 | Inet4

  /** What one non-blocking recvfrom does. */
  datatype RecvEvent =
    | Datagram(wire: Bytes, src: Endpoint)  // a datagram as it was sent, from src
    | WouldBlock                            // BlockingIOError: nothing to read
    | RecvError                             // any other exception

  /** The abstract I/O of one loop iteration. */
  datatype Tick = Tick(sendOk: bool, recv: RecvEvent)

  /** One datagram handed to sendto. */
  datatype Sent = Sent(payload: Bytes, to: Endpoint)

  /** The state one iteration reads and writes: the peer, both queues, the
      datagrams sent so far and the peer_connected notifications so far. */
  datatype NetState = NetState(
    peer: Option<Endpoint>,
    outgoing: seq<Bytes>,
    incoming: seq<Option<Bytes>>,
    sent: seq<Sent>,
    connected: seq<Endpoint>)

  datatype StepResult = StepResult(state: NetState, keepRunning: bool)

  /** The address handed to bind: an IPv4 socket cannot bind "::", so that
      one address is replaced by the IPv4 wildcard. */
  function BindIp(family: Family, localIp: string): (r: string)
    ensures family.Inet6? ==> r == localIp
    ensures localIp != Ipv6Any ==> r == localIp
    ensures family.Inet4? && localIp == Ipv6Any ==> r == Ipv4Any
    ensures r == Ipv6Any ==> family.Inet6?
  {
    if family.Inet4? && localIp == Ipv6Any then Ipv4Any else localIp
  }

  /** The payload recvfrom(4096) returns for a datagram: a longer datagram
      is cut to its first MaxRecv bytes. */
  function Truncate(wire: Bytes): (p: Bytes)
    ensures |p| <= MaxRecv && |p| <= |wire| && p == wire[..|p|]
    ensures |wire| <= MaxRecv ==> p == wire
    ensures |wire| >= MaxRecv ==> |p| == MaxRecv
  {
    if |wire| <= MaxRecv then wire else wire[..MaxRecv]
  }

  /** The send half of one iteration (network.py:63-68). */
  function SendHalf(s: NetState, sendOk: bool): (r: NetState)
    // the send half touches only the outgoing queue and the socket
    ensures r.peer == s.peer && r.incoming == s.incoming && r.connected == s.connected
    // without a peer nothing is taken and nothing is sent
    ensures s.peer.None? ==> r == s
    // an empty queue is no error and changes nothing
    ensures s.outgoing == [] ==> r == s
    // with a peer, exactly the head is taken ...
    ensures s.peer.Some? && s.outgoing != [] ==> r.outgoing == s.outgoing[1..]
    // ... and it is sent to the peer unless sendto fails, when it is lost
    ensures s.peer.Some? && s.outgoing != [] ==>
      r.sent == s.sent + (if sendOk then [Sent(s.outgoing[0], s.peer.value)] else [])
  {
    if s.peer.Some? && s.outgoing != [] then
      var data := s.outgoing[0];
      s.(outgoing := s.outgoing[1..],
         sent := if sendOk then s.sent + [Sent(data, s.peer.value)] else s.sent)
    else
      s
  }

  /** The receive half of one iteration (network.py:71-91). */
  function RecvHalf(s: NetState, ev: RecvEvent): (r: StepResult)
    // only an error other than would-block ends the loop
    ensures r.keepRunning <==> !ev.RecvError?
    // the receive half never touches the sending side
    ensures r.state.outgoing == s.outgoing && r.state.sent == s.sent
    // would-block and errors change no state
    ensures !ev.Datagram? ==> r.state == s
    // discovery: the first sender becomes the peer, is announced once, and
    // its payload is accepted
    ensures ev.Datagram? && s.peer.None? ==>
      && r.state.peer == Some(ev.src)
      && r.state.connected == s.connected + [ev.src]
      && r.state.incoming == s.incoming + [Some(Truncate(ev.wire))]
    // once set, the peer never changes and is never announced again
    ensures s.peer.Some? ==> r.state.peer == s.peer && r.state.connected == s.connected
    // filtering: a payload is accepted exactly when it comes from the peer
    ensures ev.Datagram? && s.peer.Some? ==>
      r.state.incoming == s.incoming + (if ev.src == s.peer.value then [Some(Truncate(ev.wire))] else [])
  {
    match ev
    case WouldBlock => StepResult(s, true)
    case RecvError => StepResult(s, false)
    case Datagram(wire, src) =>
      var s1 := if s.peer.None? then s.(peer := Some(src), connected := s.connected + [src]) else s;
      var s2 :=
        if s1.peer.Some? && src.ip == s1.peer.value.ip && src.port == s1.peer.value.port
        then s1.(incoming := s1.incoming + [Some(Truncate(wire))])
        else s1;
      StepResult(s2, true)
  }

  /** What one iteration may do to the state: take at most the head off the
      outgoing queue, send nothing but that head and only to an established
      peer, accept at most one payload, keep an established peer, and
      announce a peer at most once, only when it is adopted. */
  predicate StepBounds(s: NetState, m: NetState) {
    && (m.outgoing == s.outgoing || (s.outgoing != [] && m.outgoing == s.outgoing[1..]))
    && (m.sent == s.sent
        || (s.peer.Some? && s.outgoing != [] && m.outgoing == s.outgoing[1..]
            && m.sent == s.sent + [Sent(s.outgoing[0], s.peer.value)]))
    && s.incoming <= m.incoming && |m.incoming| <= |s.incoming| + 1
    && (s.peer.Some? ==> m.peer == s.peer)
    && (m.connected == s.connected
        || (s.peer.None? && m.peer.Some? && s.connected <= m.connected
            && |m.connected| == |s.connected| + 1))
  }

  /** What a whole run may do to the state: keep an established peer and not
      announce it again, announce at most one peer, only append to the
      incoming queue and the send log, take a prefix off the outgoing queue,
      and send no more datagrams than frames taken. */
  predicate RunBounds(s: NetState, r: NetState) {
    && (s.peer.Some? ==> r.peer == s.peer && r.connected == s.connected)
    && s.connected <= r.connected && |r.connected| <= |s.connected| + 1
    && s.incoming <= r.incoming && s.sent <= r.sent
    && |r.outgoing| <= |s.outgoing| && r.outgoing == s.outgoing[|s.outgoing| - |r.outgoing|..]
    && |r.sent| - |s.sent| <= |s.outgoing| - |r.outgoing|
  }

  /** What was sent between s and r is some of the frames taken off the
      outgoing queue, in queue order, each addressed to r's peer. */
  predicate SentTaken(s: NetState, r: NetState) {
    && s.sent <= r.sent && |r.outgoing| <= |s.outgoing|
    && (r.sent == s.sent
        || (r.peer.Some?
            && Subseq(r.sent[|s.sent|..], Addressed(s.outgoing[..|s.outgoing| - |r.outgoing|], r.peer.value))))
  }

  /** One iteration of the poll loop: the send half, then the receive half. */
  function NetStep(s: NetState, t: Tick): (r: StepResult)
    ensures StepBounds(s, r.state)
  {
    RecvHalf(SendHalf(s, t.sendOk), t.recv)
  }

  /** The poll loop over a finite sequence of iterations: it stops after the
      first iteration whose receive fails, or when the ticks run out. */
  function RunSpec(s: NetState, ticks: seq<Tick>): (r: NetState)
    ensures RunBounds(s, r)
    decreases |ticks|
  {
    if ticks == [] then NoRun(s); s
    else
      var step := NetStep(s, ticks[0]);
      if !step.keepRunning then
        NoRun(step.state);
        ComposeBounds(s, step.state, step.state);
        step.state
      else
        var r := RunSpec(step.state, ticks[1..]);
        ComposeBounds(s, step.state, r);
        r
  }

  /** The empty run is within the bounds. */
  lemma NoRun(s: NetState)
    ensures RunBounds(s, s)
  {
    assert s.outgoing[0..] == s.outgoing;
  }

  /** An iteration followed by a run is a run. */
  lemma ComposeBounds(s: NetState, m: NetState, r: NetState)
    requires StepBounds(s, m) && RunBounds(m, r)
    ensures RunBounds(s, r)
  {
    SuffixOfTail(s.outgoing, m.outgoing, r.outgoing);
    PrefixTrans(s.incoming, m.incoming, r.incoming);
    PrefixTrans(s.sent, m.sent, r.sent);
    PrefixTrans(s.connected, m.connected, r.connected);
  }

  /** The send log of an iteration followed by a run. */
  lemma ComposeSent(s: NetState, m: NetState, r: NetState)
    requires StepBounds(s, m) && RunBounds(m, r) && SentTaken(m, r)
    ensures SentTaken(s, r)
  {
    ComposeBounds(s, m, r);
    var km := |m.outgoing| - |r.outgoing|;
    if m.sent == s.sent {
      if r.sent != m.sent && m.outgoing != s.outgoing {
        AddressedTaken(s.outgoing, km, r.peer.value);
        SubseqSkip(Sent(s.outgoing[0], r.peer.value), r.sent[|m.sent|..], Addressed(m.outgoing[..km], r.peer.value));
      }
    } else {
      var head := Sent(s.outgoing[0], s.peer.value);
      assert r.peer == s.peer;
      assert r.sent[|s.sent|..] == [head] + r.sent[|m.sent|..];
      AddressedTaken(s.outgoing, km, s.peer.value);
      SubseqCons(head, r.sent[|m.sent|..], Addressed(m.outgoing[..km], s.peer.value));
    }
  }

  lemma PrefixTrans<T>(a: seq<T>, b: seq<T>, c: seq<T>)
    requires a <= b && b <= c
    ensures a <= c
  {
  }

  /** A suffix of a sequence that is the original or its tail is a suffix of
      the original. */
  lemma SuffixOfTail<T>(a: seq<T>, b: seq<T>, c: seq<T>)
    requires b == a || (a != [] && b == a[1..])
    requires |c| <= |b| && c == b[|b| - |c|..]
    ensures |c| <= |a| && c == a[|a| - |c|..]
  {
    if b != a {
      assert a[1..][|b| - |c|..] == a[|a| - |c|..];
    }
  }

  /** Reference definition: the items a run whose peer is p puts on the
      incoming queue, in arrival order, up to the first receive error. */
  function Accepted(p: Endpoint, ticks: seq<Tick>): seq<Option<Bytes>>
    decreases |ticks|
  {
    if ticks == [] then []
    else
      match ticks[0].recv
      case RecvError => []
      case WouldBlock => Accepted(p, ticks[1..])
      case Datagram(wire, src) =>
        (if src == p then [Some(Truncate(wire))] else []) + Accepted(p, ticks[1..])
  }

  /** Reference definition: the source of the first datagram of a run, if a
      datagram arrives before the first receive error. */
  function FirstSource(ticks: seq<Tick>): Option<Endpoint>
    decreases |ticks|
  {
    if ticks == [] then None
    else
      match ticks[0].recv
      case RecvError => None
      case WouldBlock => FirstSource(ticks[1..])
      case Datagram(_, src) => Some(src)
  }

  /** The datagrams that sending frames to p produces, in order. */
  function Addressed(frames: seq<Bytes>, p: Endpoint): seq<Sent>
    decreases |frames|
  {
    if frames == [] then [] else [Sent(frames[0], p)] + Addressed(frames[1..], p)
  }

  /** The receive events with which sent datagrams arrive from `from`. */
  function Deliver(sent: seq<Sent>, from: Endpoint): seq<Tick>
    decreases |sent|
  {
    if sent == [] then [] else [Tick(true, Datagram(sent[0].payload, from))] + Deliver(sent[1..], from)
  }

  /** Every sendto of the run succeeds. */
  predicate AllSendOk(ticks: seq<Tick>)
    decreases |ticks|
  {
    ticks == [] || (ticks[0].sendOk && AllSendOk(ticks[1..]))
  }

  /** Filtering over a whole run: with peer p set, the incoming queue grows
      by exactly the payloads that come from p, unchanged and in order. */
  lemma {:induction false} RunAcceptsOnlyPeer(s: NetState, p: Endpoint, ticks: seq<Tick>)
    requires s.peer == Some(p)
    ensures RunSpec(s, ticks).incoming == s.incoming + Accepted(p, ticks)
    decreases |ticks|
  {
    if ticks != [] {
      var step := NetStep(s, ticks[0]);
      PeerStep(s, p, ticks[0]);
      AcceptedHead(p, ticks);
      RunHead(s, ticks);
      if step.keepRunning {
        RunAcceptsOnlyPeer(step.state, p, ticks[1..]);
        SnocAll(s.incoming, Here(p, ticks[0].recv), Accepted(p, ticks[1..]));
      }
    }
  }

  /** The first iteration of a run. */
  lemma RunHead(s: NetState, ticks: seq<Tick>)
    requires ticks != []
    ensures var step := NetStep(s, ticks[0]);
      RunSpec(s, ticks) == if step.keepRunning then RunSpec(step.state, ticks[1..]) else step.state
  {
  }

  /** What one receive accepts from p. */
  function Here(p: Endpoint, ev: RecvEvent): seq<Option<Bytes>> {
    if ev.Datagram? && ev.src == p then [Some(Truncate(ev.wire))] else []
  }

  /** One iteration with peer p set, as far as the receiving side is
      concerned. */
  lemma PeerStep(s: NetState, p: Endpoint, t: Tick)
    requires s.peer == Some(p)
    ensures NetStep(s, t).state.peer == Some(p)
    ensures NetStep(s, t).keepRunning <==> !t.recv.RecvError?
    ensures NetStep(s, t).state.incoming == s.incoming + Here(p, t.recv)
  {
    var s1 := SendHalf(s, t.sendOk);
    assert NetStep(s, t) == RecvHalf(s1, t.recv);
  }

  /** The first step of Accepted. */
  lemma AcceptedHead(p: Endpoint, ticks: seq<Tick>)
    requires ticks != []
    ensures ticks[0].recv.RecvError? ==> Accepted(p, ticks) == [] && Here(p, ticks[0].recv) == []
    ensures !ticks[0].recv.RecvError? ==> Accepted(p, ticks) == Here(p, ticks[0].recv) + Accepted(p, ticks[1..])
  {
  }

  /** Discovery over a whole run: with no peer set, the first sender becomes
      the peer, is announced exactly once, and from then on only its
      datagrams are accepted; with no datagram nothing changes at all. */
  lemma {:induction false} RunDiscoversFirstSender(s: NetState, ticks: seq<Tick>)
    requires s.peer.None?
    ensures var r := RunSpec(s, ticks);
      && r.peer == FirstSource(ticks)
      && (FirstSource(ticks).None? ==> r == s)
      && (FirstSource(ticks).Some? ==>
            && r.connected == s.connected + [FirstSource(ticks).value]
            && r.incoming == s.incoming + Accepted(FirstSource(ticks).value, ticks))
    decreases |ticks|
  {
    if ticks != [] {
      var step := NetStep(s, ticks[0]);
      // with no peer the send half does nothing
      assert SendHalf(s, ticks[0].sendOk) == s;
      match ticks[0].recv
      case RecvError =>
        assert RunSpec(s, ticks) == s;
      case WouldBlock =>
        assert step.state == s && step.keepRunning;
        assert RunSpec(s, ticks) == RunSpec(s, ticks[1..]);
        RunDiscoversFirstSender(s, ticks[1..]);
        assert FirstSource(ticks) == FirstSource(ticks[1..]);
        if FirstSource(ticks).Some? {
          assert Accepted(FirstSource(ticks).value, ticks) == Accepted(FirstSource(ticks).value, ticks[1..]);
        }
      case Datagram(wire, src) =>
        var item := Some(Truncate(wire));
        var rest := Accepted(src, ticks[1..]);
        assert step.keepRunning && step.state.peer == Some(src);
        assert step.state.connected == s.connected + [src];
        assert step.state.incoming == s.incoming + [item];
        assert RunSpec(s, ticks) == RunSpec(step.state, ticks[1..]);
        RunAcceptsOnlyPeer(step.state, src, ticks[1..]);
        assert FirstSource(ticks) == Some(src);
        assert Accepted(src, ticks) == [item] + rest;
        SnocShift(s.incoming, item, rest, s.incoming + ([item] + rest));
    }
  }

  /** Order of sending: with a peer set and every sendto succeeding, the
      datagrams sent are the frames taken from the outgoing queue, in queue
      order, each addressed to the peer. */
  lemma {:induction false} RunSendsInOrder(s: NetState, p: Endpoint, ticks: seq<Tick>)
    requires s.peer == Some(p)
    requires AllSendOk(ticks)
    ensures var r := RunSpec(s, ticks);
      r.sent == s.sent + Addressed(s.outgoing[..|s.outgoing| - |r.outgoing|], p)
    decreases |ticks|
  {
    var r := RunSpec(s, ticks);
    if ticks == [] {
      assert s.outgoing[..0] == [];
    } else {
      var step := NetStep(s, ticks[0]);
      assert ticks[0].sendOk && AllSendOk(ticks[1..]);
      SendingStep(s, p, ticks[0]);
      RunHead(s, ticks);
      if step.keepRunning {
        RunSendsInOrder(step.state, p, ticks[1..]);
      }
      var k1 := |step.state.outgoing| - |r.outgoing|;
      if s.outgoing == [] {
        assert s.outgoing[..0] == [] && step.state.outgoing[..k1] == [];
      } else {
        var head := Sent(s.outgoing[0], p);
        var rest := Addressed(step.state.outgoing[..k1], p);
        if !step.keepRunning {
          assert k1 == 0 && step.state.outgoing[..k1] == [];
        }
        assert r.sent == (s.sent + [head]) + rest;
        AddressedTaken(s.outgoing, k1, p);
        SnocShift(s.sent, head, rest, s.sent + ([head] + rest));
      }
    }
  }

  /** One iteration with a peer and a working sendto, as far as the sending
      side is concerned. */
  lemma SendingStep(s: NetState, p: Endpoint, t: Tick)
    requires s.peer == Some(p) && t.sendOk
    ensures NetStep(s, t).state.peer == Some(p)
    ensures s.outgoing == [] ==> NetStep(s, t).state.outgoing == [] && NetStep(s, t).state.sent == s.sent
    ensures s.outgoing != [] ==>
      && NetStep(s, t).state.outgoing == s.outgoing[1..]
      && NetStep(s, t).state.sent == s.sent + [Sent(s.outgoing[0], p)]
  {
    var s1 := SendHalf(s, t.sendOk);
    assert NetStep(s, t) == RecvHalf(s1, t.recv);
  }

  /** Addressing the first k1 + 1 frames of a queue. */
  lemma AddressedTaken(frames: seq<Bytes>, k1: nat, p: Endpoint)
    requires k1 < |frames|
    ensures Addressed(frames[..k1 + 1], p) == [Sent(frames[0], p)] + Addressed(frames[1..][..k1], p)
  {
    var taken := frames[..k1 + 1];
    assert taken[0] == frames[0] && taken[1..] == frames[1..][..k1];
  }

  /** Content of sending over any run: the datagrams sent are some of the
      frames taken off the outgoing queue, in queue order, each addressed to
      the peer; a failed sendto only leaves its frame out. */
  lemma {:induction false} RunSendsOnlyTaken(s: NetState, ticks: seq<Tick>)
    ensures SentTaken(s, RunSpec(s, ticks))
    decreases |ticks|
  {
    if ticks == [] {
      assert RunSpec(s, ticks) == s;
    } else {
      var step := NetStep(s, ticks[0]);
      RunHead(s, ticks);
      if step.keepRunning {
        RunSendsOnlyTaken(step.state, ticks[1..]);
        ComposeSent(s, step.state, RunSpec(step.state, ticks[1..]));
      } else {
        NoRun(step.state);
        ComposeSent(s, step.state, step.state);
      }
    }
  }

  /** Reference definition: the number of iterations a run makes, up to and
      including the first whose receive fails. */
  function Iterations(ticks: seq<Tick>): nat
    decreases |ticks|
  {
    if ticks == [] then 0
    else if ticks[0].recv.RecvError? then 1
    else 1 + Iterations(ticks[1..])
  }

  /** Reference definition: the frames a run with a peer set hands to sendto
      successfully. Iteration i takes frame i, if there is one, and keeps it
      exactly when its sendto succeeds; the run ends after the first
      iteration whose receive fails. */
  function Kept(frames: seq<Bytes>, ticks: seq<Tick>): seq<Bytes>
    decreases |ticks|
  {
    if ticks == [] || frames == [] then []
    else
      (if ticks[0].sendOk then [frames[0]] else [])
      + (if ticks[0].recv.RecvError? then [] else Kept(frames[1..], ticks[1..]))
  }

  /** One iteration with peer p set, as far as the sending side is
      concerned, whatever sendto does. */
  lemma PeerSendStep(s: NetState, p: Endpoint, t: Tick)
    requires s.peer == Some(p)
    ensures NetStep(s, t).state.peer == Some(p)
    ensures NetStep(s, t).keepRunning <==> !t.recv.RecvError?
    ensures s.outgoing == [] ==> NetStep(s, t).state.outgoing == [] && NetStep(s, t).state.sent == s.sent
    ensures s.outgoing != [] ==>
      && NetStep(s, t).state.outgoing == s.outgoing[1..]
      && NetStep(s, t).state.sent == s.sent + (if t.sendOk then [Sent(s.outgoing[0], p)] else [])
  {
    var s1 := SendHalf(s, t.sendOk);
    assert NetStep(s, t) == RecvHalf(s1, t.recv);
  }

  /** How much a run with a peer set takes off the outgoing queue: one
      frame per iteration, until the queue is empty. */
  lemma {:induction false} RunTakes(s: NetState, p: Endpoint, ticks: seq<Tick>)
    requires s.peer == Some(p)
    ensures |RunSpec(s, ticks).outgoing|
      == if Iterations(ticks) >= |s.outgoing| then 0 else |s.outgoing| - Iterations(ticks)
    decreases |ticks|
  {
    if ticks != [] {
      var step := NetStep(s, ticks[0]);
      PeerSendStep(s, p, ticks[0]);
      RunHead(s, ticks);
      if step.keepRunning {
        RunTakes(step.state, p, ticks[1..]);
      }
    }
  }

  /** Exactly what a run with a peer set sends: the frames Kept, in queue
      order, each addressed to the peer. A frame whose sendto fails is the
      only one left out. */
  lemma {:induction false} RunSendsKept(s: NetState, p: Endpoint, ticks: seq<Tick>)
    requires s.peer == Some(p)
    ensures RunSpec(s, ticks).sent == s.sent + Addressed(Kept(s.outgoing, ticks), p)
    decreases |ticks|
  {
    if ticks != [] {
      var step := NetStep(s, ticks[0]);
      var m := step.state;
      PeerSendStep(s, p, ticks[0]);
      RunHead(s, ticks);
      KeptHead(s.outgoing, ticks);
      if s.outgoing == [] {
        if step.keepRunning {
          RunSendsKept(m, p, ticks[1..]);
          assert Kept(m.outgoing, ticks[1..]) == [];
        }
      } else {
        var here := if ticks[0].sendOk then [s.outgoing[0]] else [];
        var d := Addressed(here, p);
        if ticks[0].sendOk {
          assert here[1..] == [];
          assert d == [Sent(s.outgoing[0], p)] + Addressed([], p);
        } else {
          assert d == [];
        }
        assert m.sent == s.sent + d;
        if step.keepRunning {
          RunSendsKept(m, p, ticks[1..]);
          var later := Kept(m.outgoing, ticks[1..]);
          AddressedAppend(here, later, p);
          SnocAll(s.sent, d, Addressed(later, p));
        } else {
          assert here + [] == here;
        }
      }
    }
  }

  /** The first iteration of Kept. */
  lemma KeptHead(frames: seq<Bytes>, ticks: seq<Tick>)
    requires ticks != []
    ensures frames == [] ==> Kept(frames, ticks) == [] && Kept(frames, ticks[1..]) == []
    ensures frames != [] ==>
      Kept(frames, ticks)
      == (if ticks[0].sendOk then [frames[0]] else [])
         + (if ticks[0].recv.RecvError? then [] else Kept(frames[1..], ticks[1..]))
  {
  }

  /** Addressing distributes over concatenation. */
  lemma {:induction false} AddressedAppend(a: seq<Bytes>, b: seq<Bytes>, p: Endpoint)
    ensures Addressed(a + b, p) == Addressed(a, p) + Addressed(b, p)
    decreases |a|
  {
    if a != [] {
      AddressedAppend(a[1..], b, p);
      assert (a + b)[1..] == a[1..] + b;
    } else {
      assert a + b == b;
    }
  }

  /** Every delivered frame that fits in one receive is accepted as it was. */
  lemma {:induction false} DeliveredFromPeer(frames: seq<Bytes>, to: Endpoint, from: Endpoint)
    requires forall i :: 0 <= i < |frames| ==> |frames[i]| <= MaxRecv
    ensures Accepted(from, Deliver(Addressed(frames, to), from)) == Items(frames)
    decreases |frames|
  {
    if frames != [] {
      DeliveredFromPeer(frames[1..], to, from);
      assert Addressed(frames, to)[1..] == Addressed(frames[1..], to);
      assert Deliver(Addressed(frames, to), from)[1..] == Deliver(Addressed(frames[1..], to), from);
      assert Items(frames) == [Some(frames[0])] + Items(frames[1..]);
    }
  }

  /** Two transports set up as each other's peer (test_core.py): the frames
      A takes from its outgoing queue arrive unchanged, in order, on B's
      incoming queue when A's datagrams reach B from A's address. */
  lemma Loopback(a: NetState, b: NetState, aAddr: Endpoint, bAddr: Endpoint, ticks: seq<Tick>)
    requires a.peer == Some(bAddr) && b.peer == Some(aAddr)
    requires AllSendOk(ticks)
    requires forall i :: 0 <= i < |a.outgoing| ==> |a.outgoing[i]| <= MaxRecv
    ensures var ra := RunSpec(a, ticks);
      var k := |a.outgoing| - |ra.outgoing|;
      RunSpec(b, Deliver(ra.sent[|a.sent|..], aAddr)).incoming == b.incoming + Items(a.outgoing[..k])
    // a run of A long enough to drain its queue delivers every queued frame
    ensures Iterations(ticks) >= |a.outgoing| ==>
      var ra := RunSpec(a, ticks);
      RunSpec(b, Deliver(ra.sent[|a.sent|..], aAddr)).incoming == b.incoming + Items(a.outgoing)
  {
    var ra := RunSpec(a, ticks);
    var k := |a.outgoing| - |ra.outgoing|;
    RunSendsInOrder(a, bAddr, ticks);
    assert ra.sent[|a.sent|..] == Addressed(a.outgoing[..k], bAddr);
    DeliveredFromPeer(a.outgoing[..k], bAddr, aAddr);
    RunAcceptsOnlyPeer(b, aAddr, Deliver(ra.sent[|a.sent|..], aAddr));
    RunTakes(a, bAddr, ticks);
    if Iterations(ticks) >= |a.outgoing| {
      assert a.outgoing[..k] == a.outgoing;
    }
  }

  /** A transport with no peer gets one datagram from 127.0.0.1:9999 and then
      a different one from 127.0.0.1:8888: only the first is accepted, and
      peer_connected fires once, for 9999. */
  lemma SecondSenderIgnored(s: NetState, first: Bytes, second: Bytes)
    requires s.peer.None? && s.incoming == [] && s.connected == []
    requires |first| <= MaxRecv
    ensures var r := RunSpec(s, [Tick(true, Datagram(first, Endpoint("127.0.0.1", 9999))),
                                 Tick(true, Datagram(second, Endpoint("127.0.0.1", 8888)))]);
      && r.incoming == [Some(first)]
      && r.connected == [Endpoint("127.0.0.1", 9999)]
      && r.peer == Some(Endpoint("127.0.0.1", 9999))
  {
    var ticks := [Tick(true, Datagram(first, Endpoint("127.0.0.1", 9999))),
                  Tick(true, Datagram(second, Endpoint("127.0.0.1", 8888)))];
    RunDiscoversFirstSender(s, ticks);
    assert Accepted(Endpoint("127.0.0.1", 9999), ticks[1..]) == [];
  }

  /** NetworkStreamer: the socket's bound address and the loop's state. The
      two queues and the signal hub are shared with the rest of the program. */
  class NetworkStreamer {
    const localIp: string
    const localPort: int
    const family: Family
    /** The address the socket was bound to (with localPort). */
    const boundIp: string
    const outgoing: Fifo<Bytes>
    const incoming: Fifo<Option<Bytes>>
    const comm: CommManager
    var peer: Option<Endpoint>
    /** Every datagram handed successfully to sendto. */
    var sent: seq<Sent>
    var isRunning: bool

    /** The part of the streamer and its shared objects that the loop uses. */
    function State(): NetState
      reads this, outgoing, incoming, comm
    {
      NetState(peer, outgoing.items, incoming.items, sent, comm.peerLog)
    }

    /** A streamer whose socket is already bound (see Create). */
    constructor (localIp: string, localPort: int, family: Family,
                 outgoing: Fifo<Bytes>, incoming: Fifo<Option<Bytes>>, comm: CommManager)
      ensures this.localIp == localIp && this.localPort == localPort && this.family == family
      ensures boundIp == BindIp(family, localIp)
      ensures this.outgoing == outgoing && this.incoming == incoming && this.comm == comm
      ensures peer == None && sent == [] && !isRunning
    {
      this.localIp, this.localPort, this.family := localIp, localPort, family;
      boundIp := BindIp(family, localIp);
      this.outgoing, this.incoming, this.comm := outgoing, incoming, comm;
      peer, sent, isRunning := None, [], false;
    }

    /** set_peer: overwrites any previous peer; nothing guards it. */
    method SetPeer(ip: string, port: int)
      modifies this
      ensures peer == Some(Endpoint(ip, port))
      ensures sent == old(sent) && isRunning == old(isRunning)
    {
      peer := Some(Endpoint(ip, port));
    }

    /** start: the loop may run from now on (the thread is not modelled). */
    method Start()
      modifies this
      ensures isRunning && peer == old(peer) && sent == old(sent)
    {
      isRunning := true;
    }

    /** stop: the loop ends at its next iteration boundary. */
    method Stop()
      modifies this
      ensures !isRunning && peer == old(peer) && sent == old(sent)
    {
      isRunning := false;
    }

    /** One iteration of _run. */
    method RunOnce(t: Tick) returns (keepRunning: bool)
      modifies this, outgoing, incoming, comm
      ensures StepResult(State(), keepRunning) == NetStep(old(State()), t)
      ensures comm.statusLog == old(comm.statusLog) && isRunning == old(isRunning)
    {
      // send data if a peer is set
      if peer.Some? {
        var data := outgoing.Take();
        if data.Some? && t.sendOk {
          sent := sent + [Sent(data.value, peer.value)];
        }
      }
      // receive data
      match t.recv {
        case WouldBlock =>
          keepRunning := true;
        case RecvError =>
          keepRunning := false;
        case Datagram(wire, src) =>
          var payload := Truncate(wire);
          if peer.None? {
            SetPeer(src.ip, src.port);
            comm.EmitPeerConnected(src);
          }
          if peer.Some? && src.ip == peer.value.ip && src.port == peer.value.port {
            incoming.Put(Some(payload));
          }
          keepRunning := true;
      }
    }

    /** _run over a finite sequence of iterations: `while self.is_running`,
        leaving the loop on the first receive error. */
    method Run(ticks: seq<Tick>)
      modifies this, outgoing, incoming, comm
      ensures State() == if old(isRunning) then RunSpec(old(State()), ticks) else old(State())
      ensures comm.statusLog == old(comm.statusLog) && isRunning == old(isRunning)
    {
      var k := 0;
      while isRunning && k < |ticks|
        invariant k <= |ticks| && isRunning == old(isRunning)
        invariant old(isRunning) ==> RunSpec(old(State()), ticks) == RunSpec(State(), ticks[k..])
        invariant !old(isRunning) ==> State() == old(State())
        invariant comm.statusLog == old(comm.statusLog)
      {
        ghost var before := State();
        var keepRunning := RunOnce(ticks[k]);
        if !keepRunning {
          assert RunSpec(before, ticks[k..]) == State();
          return;
        }
        assert ticks[k..][1..] == ticks[k + 1..];
        k := k + 1;
      }
    }
  }

  /** NetworkStreamer(...): the constructor raises when bind fails, after
      emitting "Error: Port <port> in use."; otherwise the socket is bound to
      BindIp(family, localIp) on localPort. */
  method Create(localIp: string, localPort: int, family: Family, bindOk: bool,
                outgoing: Fifo<Bytes>, incoming: Fifo<Option<Bytes>>, comm: CommManager)
    returns (r: Option<NetworkStreamer>)
    modifies comm
    ensures comm.peerLog == old(comm.peerLog)
    ensures !bindOk ==> r.None? && comm.statusLog == old(comm.statusLog) + [PortInUse(localPort)]
    ensures bindOk ==> comm.statusLog == old(comm.statusLog) && r.Some? && fresh(r.value)
    ensures bindOk ==> var n := r.value;
      && n.localIp == localIp && n.localPort == localPort && n.family == family
      && n.boundIp == BindIp(family, localIp)
      && n.outgoing == outgoing && n.incoming == incoming && n.comm == comm
      && n.peer == None && n.sent == [] && !n.isRunning
  {
    if !bindOk {
      comm.EmitStatus(PortInUse(localPort));
      return None;
    }
    var n := new NetworkStreamer(localIp, localPort, family, outgoing, incoming, comm);
    return Some(n);
  }
}
