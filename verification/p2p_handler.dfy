/** The peer event handler: its data, and what handling one event does to it. */
module PeerHandler {
  import opened Options
  import opened Sequences

  type PeerId = nat
  type Message = nat
  type Reason = nat

  /** A peer as callers name it; the handler's table is keyed by the public key alone. */
  datatype Peer = Peer(key: PeerId, addr: nat)

  /** What a notifier is told. */
  datatype Outcome = Ok | Err(reason: Reason)

  /** A caller's request. `id` is the identity of the request and of its notifier, `to` the peer
      it was made for; `notify` says whether the caller attached a notifier at all. */
  datatype Request =
    | Connect(id: nat, notify: bool, to: Peer)
    | Send(id: nat, notify: bool, to: Peer, message: Message)

  /** Where an opened connection came from. */
  datatype Source = Dialled(dial: nat) | Accepted

  datatype Event =
    | ConnectionEstablished(peer: Peer, source: Source, stream: seq<Message>)
    | ConnectionFailed(peer: Peer, dial: nat, reason: Reason)
    | OutgoingConnectionReq(peer: Peer, req: Request)
    | SendMessageReq(peer: Peer, req: Request)
    | NewIncomingMessage(peer: Peer, conn: nat, message: Message)
    | Disconnected(peer: Peer, conn: nat)

  /** The state the table keeps for a peer. `Connected` holds the sending half of the
      outgoing queue of the connection with that index. */
  datatype ConnectState =
    | Connected(conn: nat)
    | Connecting(waiting: seq<Request>, pending: seq<Request>)

  datatype Notice = Notice(id: nat, outcome: Outcome)

  /** A request together with how it ended. */
  datatype Try = Try(req: Request, outcome: Outcome)

  /** One opened connection with its writer and its reader. */
  datatype Conn = Conn(
    peer: Peer,
    queue: seq<Request>,
    tried: seq<Try>,
    writing: bool,
    unread: seq<Message>,
    reading: bool)

  datatype Dial = Dial(peer: Peer, running: bool)

  datatype Delivery = Delivery(peer: Peer, conn: nat, message: Message)

  /** The handler's table together with everything a handled event can touch: the work it
      spawns, the messages it passes up, and logs of the notifiers it fires or drops. */
  datatype Core = Core(
    peers: map<PeerId, ConnectState>,
    dials: seq<Dial>,
    conns: seq<Conn>,
    delivered: seq<Delivery>,
    notices: seq<Notice>,
    greeted: seq<Request>,
    failed: seq<Try>,
    lost: seq<Request>,
    ignored: seq<Request>,
    panicked: bool)

  const EMPTY_CORE := Core(map[], [], [], [], [], [], [], [], [], false)

  /** The notices that telling every notifier in `reqs` the same outcome produces. */
  function Tell(reqs: seq<Request>, outcome: Outcome): seq<Notice> {
    if reqs == [] then []
    else Tell(reqs[..|reqs| - 1], outcome) + TellOne(reqs[|reqs| - 1], outcome)
  }

  function TellOne(req: Request, outcome: Outcome): seq<Notice> {
    if req.notify then [Notice(req.id, outcome)] else []
  }

  function Tries(reqs: seq<Request>, outcome: Outcome): seq<Try> {
    seq(|reqs|, i requires 0 <= i < |reqs| => Try(reqs[i], outcome))
  }

  function Requests(tries: seq<Try>): seq<Request> {
    seq(|tries|, i requires 0 <= i < |tries| => tries[i].req)
  }

  function WaitingOf(peers: map<PeerId, ConnectState>, p: PeerId): seq<Request> {
    if p in peers && peers[p].Connecting? then peers[p].waiting else []
  }

  function PendingOf(peers: map<PeerId, ConnectState>, p: PeerId): seq<Request> {
    if p in peers && peers[p].Connecting? then peers[p].pending else []
  }

  /** Look the peer up, spawning a dial attempt when there is no entry. */
  function MaybeConnect(c: Core, peer: Peer): (r: Core)
    ensures peer.key in r.peers
  {
    if peer.key in c.peers then c
    else c.(dials := c.dials + [Dial(peer, true)],
            peers := c.peers[peer.key := Connecting([], [])])
  }

  /** Put a request on a connection's outgoing queue; this panics when the writer is gone. */
  function Enqueue(c: Core, k: nat, req: Request): Core {
    if k < |c.conns| && c.conns[k].writing
    then c.(conns := c.conns[k := c.conns[k].(queue := c.conns[k].queue + [req])])
    else c.(panicked := true)
  }

  function Handle(c: Core, e: Event): Core {
    match e
    case OutgoingConnectionReq(peer, req) =>
      var d := MaybeConnect(c, peer);
      (match d.peers[peer.key]
       case Connecting(w, p) =>
         if req.notify
         then d.(peers := d.peers[peer.key := Connecting(w + [req], p)])
         else d.(ignored := d.ignored + [req])
       case Connected(_) => d.(ignored := d.ignored + [req]))
    case SendMessageReq(peer, req) =>
      var d := MaybeConnect(c, peer);
      (match d.peers[peer.key]
       case Connecting(w, p) => d.(peers := d.peers[peer.key := Connecting(w, p + [req])])
       case Connected(k) => Enqueue(d, k, req))
    case NewIncomingMessage(peer, k, message) =>
      c.(delivered := c.delivered + [Delivery(peer, k, message)])
    case Disconnected(peer, _) =>
      c.(peers := c.peers - {peer.key},
         lost := c.lost + WaitingOf(c.peers, peer.key) + PendingOf(c.peers, peer.key))
    case ConnectionEstablished(peer, _, stream) =>
      var waiting, pending := WaitingOf(c.peers, peer.key), PendingOf(c.peers, peer.key);
      c.(notices := c.notices + Tell(waiting, Ok),
         greeted := c.greeted + waiting,
         conns := c.conns + [Conn(peer, pending, [], true, stream, true)],
         peers := c.peers[peer.key := Connected(|c.conns|)])
    case ConnectionFailed(peer, _, reason) =>
      var waiting, pending := WaitingOf(c.peers, peer.key), PendingOf(c.peers, peer.key);
      c.(peers := c.peers - {peer.key},
         notices := c.notices + Tell(waiting, Err(reason)) + Tell(pending, Err(reason)),
         failed := c.failed + Tries(waiting, Err(reason)) + Tries(pending, Err(reason)))
  }

  function HandleAll(c: Core, events: seq<Event>): Core {
    if events == [] then c
    else Handle(HandleAll(c, events[..|events| - 1]), events[|events| - 1])
  }

  /** One turn of a connection's writer loop: try the first queued message, then notify. */
  function WriteOne(c: Core, k: nat, outcome: Outcome): Core
    requires k < |c.conns| && c.conns[k].queue != []
  {
    var conn := c.conns[k];
    var req := conn.queue[0];
    c.(conns := c.conns[k := conn.(queue := conn.queue[1..], tried := conn.tried + [Try(req, outcome)])],
       notices := c.notices + TellOne(req, outcome))
  }

  /** The writer loop run until its queue is empty, `sink(i)` being the i-th answer of the sink. */
  function WriteAll(c: Core, k: nat, sink: nat -> Outcome): (r: Core)
    requires k < |c.conns|
    ensures |r.conns| == |c.conns|
    decreases |c.conns[k].queue|
  {
    if c.conns[k].queue == [] then c
    else WriteAll(WriteOne(c, k, sink(|c.conns[k].tried|)), k, sink)
  }

  /** What a connection's reader sends to the handler from its stream of messages. */
  function ReadEvents(peer: Peer, k: nat, stream: seq<Message>): seq<Event> {
    seq(|stream|, i requires 0 <= i < |stream| => NewIncomingMessage(peer, k, stream[i]))
    + [Disconnected(peer, k)]
  }

  /** The handler object. */
  class EventHandler {
    var peers: map<PeerId, ConnectState>
    var dials: seq<Dial>
    var conns: seq<Conn>
    var delivered: seq<Delivery>
    var notices: seq<Notice>
    var greeted: seq<Request>
    var failed: seq<Try>
    var lost: seq<Request>
    var ignored: seq<Request>
    var panicked: bool

    function View(): Core
      reads this
    {
      Core(peers, dials, conns, delivered, notices, greeted, failed, lost, ignored, panicked)
    }

    constructor ()
      ensures View() == EMPTY_CORE
    {
      peers, dials, conns, delivered, notices := map[], [], [], [], [];
      greeted, failed, lost, ignored, panicked := [], [], [], [], false;
    }

    /** The main loop: handle the queued events one after another. */
    method Serve(events: seq<Event>)
      modifies this
      ensures View() == HandleAll(old(View()), events)
    {
      assert events[..0] == [];
      for i := 0 to |events|
        invariant View() == HandleAll(old(View()), events[..i])
      {
        HandleEvent(events[i]);
        assert events[..i + 1][..i] == events[..i];
      }
      assert events[..|events|] == events;
    }

    method HandleEvent(e: Event)
      modifies this
      ensures View() == Handle(old(View()), e)
    {
      match e
      case OutgoingConnectionReq(peer, req) =>
        DialIfVacant(peer);
        match peers[peer.key] {
          case Connecting(w, p) =>
            if req.notify {
              peers := peers[peer.key := Connecting(w + [req], p)];
            } else {
              ignored := ignored + [req];
            }
          case Connected(_) =>
            ignored := ignored + [req];
        }
      case SendMessageReq(peer, req) =>
        DialIfVacant(peer);
        match peers[peer.key] {
          case Connected(k) => UnboundedSend(k, req);
          case Connecting(w, p) => peers := peers[peer.key := Connecting(w, p + [req])];
        }
      case NewIncomingMessage(peer, k, message) =>
        delivered := delivered + [Delivery(peer, k, message)];
      case Disconnected(peer, _) =>
        lost := lost + WaitingOf(peers, peer.key) + PendingOf(peers, peer.key);
        peers := peers - {peer.key};
      case ConnectionEstablished(peer, _, stream) =>
        SpawnOutgoingMessages(peer);
        SpawnIncomingMessages(stream);
      case ConnectionFailed(peer, _, reason) =>
        FailConnection(peer, reason);
    }

    method DialIfVacant(peer: Peer)
      modifies this`peers, this`dials
      ensures View() == MaybeConnect(old(View()), peer)
    {
      if peer.key !in peers {
        dials := dials + [Dial(peer, true)];
        peers := peers[peer.key := Connecting([], [])];
      }
    }

    method UnboundedSend(k: nat, req: Request)
      modifies this`conns, this`panicked
      ensures View() == Enqueue(old(View()), k, req)
    {
      if k < |conns| && conns[k].writing {
        conns := conns[k := conns[k].(queue := conns[k].queue + [req])];
      } else {
        panicked := true;
      }
    }

    method FailConnection(peer: Peer, reason: Reason)
      modifies this`peers, this`notices, this`failed
      ensures View() == Handle(old(View()), ConnectionFailed(peer, 0, reason))
    {
      var removed := if peer.key in peers then Some(peers[peer.key]) else None;
      peers := peers - {peer.key};
      if removed.Some? && removed.value.Connecting? {
        DrainErr(removed.value.waiting, reason);
        DrainErr(removed.value.pending, reason);
      }
    }

    /** Tell each notifier of `reqs` that the connection failed. */
    method DrainErr(reqs: seq<Request>, reason: Reason)
      modifies this`notices, this`failed
      ensures notices == old(notices) + Tell(reqs, Err(reason))
      ensures failed == old(failed) + Tries(reqs, Err(reason))
    {
      for i := 0 to |reqs|
        invariant notices == old(notices) + Tell(reqs[..i], Err(reason))
        invariant failed == old(failed) + Tries(reqs[..i], Err(reason))
      {
        if reqs[i].notify {
          notices := notices + [Notice(reqs[i].id, Err(reason))];
        }
        failed := failed + [Try(reqs[i], Err(reason))];
        assert reqs[..i + 1][..i] == reqs[..i];
        assert Tries(reqs[..i + 1], Err(reason)) == Tries(reqs[..i], Err(reason)) + [Try(reqs[i], Err(reason))];
      }
      assert reqs[..|reqs|] == reqs;
    }

    /** Open a connection's outgoing queue, answer those waiting for it, move the pending
        messages over and replace the peer's entry. */
    method SpawnOutgoingMessages(peer: Peer)
      modifies this`peers, this`notices, this`greeted, this`conns
      ensures View() == Handle(old(View()), ConnectionEstablished(peer, Accepted, [])).(
                conns := old(conns) + [Conn(peer, PendingOf(old(peers), peer.key), [], true, [], false)])
    {
      var state := if peer.key in peers then peers[peer.key] else Connecting([], []);
      var queue := [];
      if state.Connecting? {
        for i := 0 to |state.waiting|
          invariant peers == old(peers) && conns == old(conns)
          invariant notices == old(notices) + Tell(state.waiting[..i], Ok)
          invariant greeted == old(greeted) + state.waiting[..i]
        {
          if state.waiting[i].notify {
            notices := notices + [Notice(state.waiting[i].id, Ok)];
          }
          greeted := greeted + [state.waiting[i]];
          assert state.waiting[..i + 1][..i] == state.waiting[..i];
        }
        assert state.waiting[..|state.waiting|] == state.waiting;
        for i := 0 to |state.pending|
          invariant peers == old(peers) && conns == old(conns)
          invariant notices == old(notices) + Tell(state.waiting, Ok)
          invariant greeted == old(greeted) + state.waiting
          invariant queue == state.pending[..i]
        {
          queue := queue + [state.pending[i]];
        }
      }
      assert queue == PendingOf(peers, peer.key);
      assert greeted == old(greeted) + WaitingOf(peers, peer.key);
      peers := peers[peer.key := Connected(|conns|)];
      conns := conns + [Conn(peer, queue, [], true, [], false)];
    }

    /** Start the reader of the connection opened last. */
    method SpawnIncomingMessages(stream: seq<Message>)
      requires conns != []
      modifies this`conns
      ensures conns == old(conns)[|old(conns)| - 1 := old(conns)[|old(conns)| - 1].(unread := stream, reading := true)]
    {
      var last := |conns| - 1;
      conns := conns[last := conns[last].(unread := stream, reading := true)];
    }

    /** A connection's writer loop. It goes on after an error of the sink. */
    method WriteLoop(k: nat, sink: nat -> Outcome)
      requires k < |conns|
      modifies this`conns, this`notices
      ensures View() == WriteAll(old(View()), k, sink)
    {
      while conns[k].queue != []
        invariant k < |conns|
        invariant WriteAll(View(), k, sink) == WriteAll(old(View()), k, sink)
        decreases |conns[k].queue|
      {
        var req := conns[k].queue[0];
        var outcome := sink(|conns[k].tried|);
        ghost var was := View();
        conns := conns[k := conns[k].(queue := conns[k].queue[1..], tried := conns[k].tried + [Try(req, outcome)])];
        if req.notify {
          notices := notices + [Notice(req.id, outcome)];
        }
        assert View() == WriteOne(was, k, outcome);
      }
    }
  }

  /** A connection's reader loop: everything in the stream, then the disconnect. */
  method ReadLoop(peer: Peer, k: nat, stream: seq<Message>) returns (sent: seq<Event>)
    ensures sent == ReadEvents(peer, k, stream)
  {
    sent := [];
    for i := 0 to |stream|
      invariant sent == ReadEvents(peer, k, stream)[..i]
    {
      sent := sent + [NewIncomingMessage(peer, k, stream[i])];
    }
    sent := sent + [Disconnected(peer, k)];
  }

  lemma TellLast(reqs: seq<Request>, last: Request, outcome: Outcome)
    ensures Tell(reqs + [last], outcome) == Tell(reqs, outcome) + TellOne(last, outcome)
  {
    hide TellOne;
    assert (reqs + [last])[..|reqs|] == reqs;
  }

  /** Telling two lists one after the other is telling their concatenation. */
  lemma {:induction false} TellInOrder(a: seq<Request>, b: seq<Request>, outcome: Outcome)
    ensures Tell(a + b, outcome) == Tell(a, outcome) + Tell(b, outcome)
    decreases |b|
  {
    if b == [] {
      assert a + b == a;
    } else {
      hide Tell, TellOne;
      var front, last := FrontAndLast(b);
      TellInOrder(a, front, outcome);
      Associative(a, front, [last]);
      TellLast(a + front, last, outcome);
      TellLast(front, last, outcome);
      Associative(Tell(a, outcome), Tell(front, outcome), TellOne(last, outcome));
    }
  }

  /** The notices that a queue calls for, in its order, when the sink's answers to its messages begin
      with the `first`-th. */
  function Answers(queue: seq<Request>, first: nat, sink: nat -> Outcome): seq<Notice> {
    if queue == [] then []
    else TellOne(queue[0], sink(first)) + Answers(queue[1..], first + 1, sink)
  }

  /** The writer loop tells exactly the notifiers of its queue, each the answer to its own message, in
      queue order, and changes nothing but its connection's queue and log. */
  lemma {:induction false} WriterTellsEverybody(c: Core, k: nat, sink: nat -> Outcome)
    requires k < |c.conns|
    ensures var before, after := c.conns[k], WriteAll(c, k, sink).conns[k];
            && WriteAll(c, k, sink).notices == c.notices + Answers(before.queue, |before.tried|, sink)
            && WriteAll(c, k, sink) == c.(conns := c.conns[k := after], notices := WriteAll(c, k, sink).notices)
            && after == before.(queue := [], tried := after.tried)
    decreases |c.conns[k].queue|
  {
    if c.conns[k].queue != [] {
      var conn, t := c.conns[k], |c.conns[k].tried|;
      var d := WriteOne(c, k, sink(t));
      WriterTellsEverybody(d, k, sink);
      AnswersFirst(conn.queue, t, sink);
      WriteAllFirst(c, k, sink);
      OneWrite(c, k, sink(t));
      hide WriteAll, WriteOne, Answers, TellOne;
      Associative(c.notices, TellOne(conn.queue[0], sink(t)), Answers(conn.queue[1..], t + 1, sink));
      var after := WriteAll(c, k, sink).conns[k];
      assert c.conns[k := d.conns[k]][k := after] == c.conns[k := after];
    }
  }

  lemma AnswersFirst(queue: seq<Request>, first: nat, sink: nat -> Outcome)
    requires queue != []
    ensures Answers(queue, first, sink) == TellOne(queue[0], sink(first)) + Answers(queue[1..], first + 1, sink)
  {
  }

  lemma WriteAllFirst(c: Core, k: nat, sink: nat -> Outcome)
    requires k < |c.conns| && c.conns[k].queue != []
    ensures WriteAll(c, k, sink) == WriteAll(WriteOne(c, k, sink(|c.conns[k].tried|)), k, sink)
  {
  }

  lemma OneWrite(c: Core, k: nat, outcome: Outcome)
    requires k < |c.conns| && c.conns[k].queue != []
    ensures var d, conn := WriteOne(c, k, outcome), c.conns[k];
            && d.notices == c.notices + TellOne(conn.queue[0], outcome)
            && |d.conns| == |c.conns| && d.conns[k].queue == conn.queue[1..] && |d.conns[k].tried| == |conn.tried| + 1
            && d.conns == c.conns[k := d.conns[k]]
            && d == c.(conns := d.conns, notices := d.notices)
            && d.conns[k] == conn.(queue := d.conns[k].queue, tried := d.conns[k].tried)
  {
    hide TellOne;
  }

  /** The writer loop tries every queued message exactly once and in order, whatever the
      sink answers, and tells each notifier what the sink said of its own message. */
  lemma {:induction false} WriterTriesEverything(c: Core, k: nat, sink: nat -> Outcome)
    requires k < |c.conns|
    ensures var before, after := c.conns[k], WriteAll(c, k, sink).conns[k];
            && after.queue == []
            && |after.tried| == |before.tried| + |before.queue|
            && after.tried[..|before.tried|] == before.tried
            && forall i :: 0 <= i < |before.queue| ==>
                 after.tried[|before.tried| + i] == Try(before.queue[i], sink(|before.tried| + i))
    ensures forall j :: 0 <= j < |c.conns| && j != k ==> WriteAll(c, k, sink).conns[j] == c.conns[j]
    ensures WriteAll(c, k, sink).peers == c.peers
    decreases |c.conns[k].queue|
  {
    if c.conns[k].queue != [] {
      var t := |c.conns[k].tried|;
      var d := WriteOne(c, k, sink(t));
      WriterTriesEverything(d, k, sink);
      var before, mid, after := c.conns[k], d.conns[k], WriteAll(c, k, sink).conns[k];
      assert after.tried[..t] == after.tried[..t + 1][..t];
      forall i | 0 <= i < |before.queue|
        ensures after.tried[t + i] == Try(before.queue[i], sink(t + i))
      {
        if i == 0 {
          assert after.tried[..t + 1][t] == mid.tried[t];
        } else {
          assert mid.queue[i - 1] == before.queue[i];
          assert after.tried[t + 1 + (i - 1)] == Try(mid.queue[i - 1], sink(t + 1 + (i - 1)));
        }
      }
    }
  }
}
