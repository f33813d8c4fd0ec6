/** Values and shared objects used by every component of the voice link:
    byte strings, network endpoints, the thread-safe FIFO that connects the
    workers (Python's queue.Queue) and the signal hub through which the
    workers notify the window (CommunicationManager, main.py). */
module Base {

  datatype Option<+T> = None | Some(value: T)

  datatype Result<+T, +E> = Ok(value: T) | Err(error: E)

  type Bytes = seq<bv8>

  /** A (host, port) pair. Hosts are opaque strings and are compared as such. */
  datatype Endpoint = Endpoint(ip: string, port: int)

  /** The values carried by the status_changed signal. */
  datatype Status =
    | Connecting
    | InCall
    | Disconnecting
    | Idle
    | PortInUse(port: int)  // "Error: Port <port> in use."

  /** An unbounded FIFO shared by one producer and one consumer. */
  class Fifo<T> {
    var items: seq<T>

    constructor ()
      ensures items == []
    {
      items := [];
    }

    /** queue.put: never fails on an unbounded queue. */
    method Put(x: T)
      modifies this
      ensures items == old(items) + [x]
    {
      items := items + [x];
    }

    /** queue.get_nowait / a get that cannot block: the head, or None
        (queue.Empty) when there is nothing to take. */
    method Take() returns (r: Option<T>)
      modifies this
      ensures old(items) == [] ==> r == None && items == []
      ensures old(items) != [] ==> r == Some(old(items)[0]) && items == old(items)[1..]
    {
      if items == [] {
        r := None;
      } else {
        r := Some(items[0]);
        items := items[1..];
      }
    }
  }

  /** CommunicationManager: each emitted signal is appended to a log. */
  class CommManager {
    var statusLog: seq<Status>
    var peerLog: seq<Endpoint>

    constructor ()
      ensures statusLog == [] && peerLog == []
    {
      statusLog, peerLog := [], [];
    }

    method EmitStatus(s: Status)
      modifies this
      ensures statusLog == old(statusLog) + [s] && peerLog == old(peerLog)
    {
      statusLog := statusLog + [s];
    }

    method EmitPeerConnected(e: Endpoint)
      modifies this
      ensures peerLog == old(peerLog) + [e] && statusLog == old(statusLog)
    {
      peerLog := peerLog + [e];
    }
  }

  /** Frames as items of an incoming queue (where None is the sentinel), in
      order. */
  function Items(frames: seq<Bytes>): seq<Option<Bytes>>
    decreases |frames|
  {
    if frames == [] then [] else [Some(frames[0])] + Items(frames[1..])
  }

  /** Items keeps the frames where they were. */
  lemma {:induction false} ItemsAt(frames: seq<Bytes>)
    ensures |Items(frames)| == |frames|
    ensures forall i :: 0 <= i < |frames| ==> Items(frames)[i] == Some(frames[i])
    decreases |frames|
  {
    if frames != [] {
      ItemsAt(frames[1..]);
    }
  }

  /** a is a subsequence of b: b with some elements left out. */
  predicate Subseq<T(==)>(a: seq<T>, b: seq<T>)
    decreases |b|
  {
    if a == [] then true
    else if b == [] then false
    else (a[0] == b[0] && Subseq(a[1..], b[1..])) || Subseq(a, b[1..])
  }

  /** A subsequence extended on both sides by the same head. */
  lemma SubseqCons<T>(x: T, a: seq<T>, b: seq<T>)
    requires Subseq(a, b)
    ensures Subseq([x] + a, [x] + b)
  {
    assert ([x] + a)[1..] == a && ([x] + b)[1..] == b;
  }

  /** A subsequence of a sequence is a subsequence of it with a new head. */
  lemma SubseqSkip<T>(x: T, a: seq<T>, b: seq<T>)
    requires Subseq(a, b)
    ensures Subseq(a, [x] + b)
  {
    assert ([x] + b)[1..] == b;
  }

  /** Moving one element across a concatenation. */
  lemma SnocShift<T>(done: seq<T>, x: T, rest: seq<T>, whole: seq<T>)
    requires whole == done + ([x] + rest)
    ensures whole == (done + [x]) + rest
  {
  }

  /** Appending two pieces one after the other. */
  lemma SnocAll<T>(done: seq<T>, a: seq<T>, b: seq<T>)
    ensures done + a + b == done + (a + b)
  {
  }

  /** Extending a prefix by the next element. */
  lemma ExtendPrefix<T>(done: seq<T>, s: seq<T>, k: nat)
    requires k < |s|
    ensures done + s[..k] + [s[k]] == done + s[..k + 1]
  {
    assert s[..k] + [s[k]] == s[..k + 1];
  }
}
