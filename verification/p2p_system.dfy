/** The handler together with everything that runs beside it: callers, the listener, dial
    attempts, readers and writers. Each action is one atomic step of one of them. */
module PeerSystem {
  import opened Options
  import opened PeerHandler

  /** `inbox` is the event channel; `asked` lists every request callers ever made, the id of
      a request being its position; `hist` lists the events the handler has handled. */
  datatype Sys = Sys(core: Core, inbox: seq<Event>, asked: seq<Request>, hist: seq<Event>)

  const INIT := Sys(EMPTY_CORE, [], [], [])

  datatype Action =
    | AskSend(to: Peer, message: Message, notify: bool)
    | AskConnect(to: Peer, notify: bool)
    | Accept(from: Peer, stream: seq<Message>)
    | HandleNext
    | DialSucceeds(dial: nat, stream: seq<Message>)
    | DialFails(dial: nat, reason: Reason)
    | ReadNext(conn: nat)
    | ReadEnds(conn: nat)
    | WriteNext(conn: nat, outcome: Outcome)
    | WriterEnds(conn: nat)

  /** Actions of the environment: callers and the listener. */
  predicate External(a: Action) {
    a.AskSend? || a.AskConnect? || a.Accept?
  }

  /** The sending half of connection `k`'s queue lives only in the handler's table. */
  predicate SenderAlive(c: Core, k: nat) {
    exists p :: p in c.peers && c.peers[p] == Connected(k)
  }

  predicate Enabled(s: Sys, a: Action) {
    match a
    case AskSend(_, _, _) => true
    case AskConnect(_, _) => true
    case Accept(_, _) => true
    case HandleNext => s.inbox != []
    case DialSucceeds(d, _) => d < |s.core.dials| && s.core.dials[d].running
    case DialFails(d, _) => d < |s.core.dials| && s.core.dials[d].running
    case ReadNext(k) => k < |s.core.conns| && s.core.conns[k].reading && s.core.conns[k].unread != []
    case ReadEnds(k) => k < |s.core.conns| && s.core.conns[k].reading && s.core.conns[k].unread == []
    case WriteNext(k, _) => k < |s.core.conns| && s.core.conns[k].writing && s.core.conns[k].queue != []
    case WriterEnds(k) =>
      k < |s.core.conns| && s.core.conns[k].writing && s.core.conns[k].queue == [] && !SenderAlive(s.core, k)
  }

  function Next(s: Sys, a: Action): Sys
    requires Enabled(s, a)
  {
    match a
    case AskSend(to, message, notify) =>
      var req := Send(|s.asked|, notify, to, message);
      s.(asked := s.asked + [req], inbox := s.inbox + [SendMessageReq(to, req)])
    case AskConnect(to, notify) =>
      var req := Connect(|s.asked|, notify, to);
      s.(asked := s.asked + [req], inbox := s.inbox + [OutgoingConnectionReq(to, req)])
    case Accept(from, stream) =>
      s.(inbox := s.inbox + [ConnectionEstablished(from, Accepted, stream)])
    case HandleNext =>
      s.(core := Handle(s.core, s.inbox[0]), inbox := s.inbox[1..], hist := s.hist + [s.inbox[0]])
    case DialSucceeds(d, stream) =>
      EndDial(s, d, ConnectionEstablished(s.core.dials[d].peer, Dialled(d), stream))
    case DialFails(d, reason) =>
      EndDial(s, d, ConnectionFailed(s.core.dials[d].peer, d, reason))
    case ReadNext(k) =>
      var conn := s.core.conns[k];
      s.(core := s.core.(conns := s.core.conns[k := conn.(unread := conn.unread[1..])]),
         inbox := s.inbox + [NewIncomingMessage(conn.peer, k, conn.unread[0])])
    case ReadEnds(k) =>
      var conn := s.core.conns[k];
      s.(core := s.core.(conns := s.core.conns[k := conn.(reading := false)]),
         inbox := s.inbox + [Disconnected(conn.peer, k)])
    case WriteNext(k, outcome) =>
      s.(core := WriteOne(s.core, k, outcome))
    case WriterEnds(k) =>
      s.(core := s.core.(conns := s.core.conns[k := s.core.conns[k].(writing := false)]))
  }

  function EndDial(s: Sys, d: nat, report: Event): Sys
    requires d < |s.core.dials|
  {
    s.(core := s.core.(dials := s.core.dials[d := s.core.dials[d].(running := false)]),
       inbox := s.inbox + [report])
  }

  /** States that follow each other by handling one queued event each. */
  ghost predicate HandlesInTurn(states: seq<Sys>) {
    forall i :: 0 <= i < |states| - 1 ==>
      states[i].inbox != [] && states[i + 1] == Next(states[i], HandleNext)
  }

  /** The main loop is the system's handling steps: after `n` of them from any state the core is what
      the loop makes of the first `n` queued events, which are off the queue and in the history. */
  lemma {:induction false} ServingIsHandling(states: seq<Sys>, n: nat)
    requires |states| == n + 1 && HandlesInTurn(states) && n <= |states[0].inbox|
    ensures var s, s' := states[0], states[n];
            && s'.core == HandleAll(s.core, s.inbox[..n])
            && s'.inbox == s.inbox[n..] && s'.hist == s.hist + s.inbox[..n] && s'.asked == s.asked
  {
    hide Handle;
    var s := states[0];
    if n > 0 {
      var before := states[n - 1];
      ServingIsHandling(states[..n], n - 1);
      assert states[n] == Next(before, HandleNext) && before.inbox[0] == s.inbox[n - 1];
      assert s.inbox[..n][..n - 1] == s.inbox[..n - 1];
    }
  }

  /** There are always as many handling steps as queued events. */
  lemma {:induction false} ServesTheQueue(s: Sys, n: nat) returns (states: seq<Sys>)
    requires n <= |s.inbox|
    ensures |states| == n + 1 && states[0] == s && HandlesInTurn(states)
  {
    hide Handle;
    if n == 0 {
      states := [s];
    } else {
      var front := ServesTheQueue(s, n - 1);
      ServingIsHandling(front, n - 1);
      states := front + [Next(front[n - 1], HandleNext)];
    }
  }

  /** One write on connection `k`, the `j`-th message ever tried there being answered by `sink(j)`. */
  ghost predicate Writes(s: Sys, s': Sys, k: nat, sink: nat -> Outcome) {
    && k < |s.core.conns|
    && var a := WriteNext(k, sink(|s.core.conns[k].tried|));
       Enabled(s, a) && s' == Next(s, a)
  }

  /** States that follow each other by such writes. */
  ghost predicate WritesInTurn(states: seq<Sys>, k: nat, sink: nat -> Outcome) {
    forall i :: 0 <= i < |states| - 1 ==> Writes(states[i], states[i + 1], k, sink)
  }

  /** The writer loop is the system's writing steps: those that empty a connection's queue lead, in the
      core, to what the loop makes of it, and touch nothing else. */
  lemma {:induction false} WritingIsTheLoop(states: seq<Sys>, k: nat, sink: nat -> Outcome)
    requires states != [] && WritesInTurn(states, k, sink)
    requires k < |states[0].core.conns| && k < |states[|states| - 1].core.conns|
    requires states[|states| - 1].core.conns[k].queue == []
    ensures states[|states| - 1] == states[0].(core := WriteAll(states[0].core, k, sink))
  {
    hide WriteOne;
    if |states| > 1 {
      var rest := states[1..];
      assert Writes(states[0], states[1], k, sink);
      forall i | 0 <= i < |rest| - 1
        ensures Writes(rest[i], rest[i + 1], k, sink)
      {
        assert Writes(states[i + 1], states[i + 2], k, sink);
      }
      WriteKeepsConns(states[0], k, sink(|states[0].core.conns[k].tried|));
      WritingIsTheLoop(rest, k, sink);
    }
  }

  lemma WriteKeepsConns(s: Sys, k: nat, outcome: Outcome)
    requires Enabled(s, WriteNext(k, outcome))
    ensures |Next(s, WriteNext(k, outcome)).core.conns| == |s.core.conns|
  {
  }

  /** While a connection's writer runs, such writes can always empty its queue. */
  lemma {:induction false} WritesTheQueue(s: Sys, k: nat, sink: nat -> Outcome) returns (states: seq<Sys>)
    requires k < |s.core.conns| && s.core.conns[k].writing
    ensures states != [] && states[0] == s && WritesInTurn(states, k, sink)
    ensures var last := states[|states| - 1].core; k < |last.conns| && last.conns[k].queue == []
    decreases |s.core.conns[k].queue|
  {
    if s.core.conns[k].queue == [] {
      states := [s];
    } else {
      var a := WriteNext(k, sink(|s.core.conns[k].tried|));
      var rest := WritesTheQueue(Next(s, a), k, sink);
      states := [s] + rest;
      forall i | 0 <= i < |states| - 1
        ensures Writes(states[i], states[i + 1], k, sink)
      {
        if i > 0 {
          assert Writes(rest[i - 1], rest[i], k, sink);
        }
      }
    }
  }

  /** The reader of connection `k` run to its end, with nothing in between. */
  function ReadAll(s: Sys, k: nat): Sys
    requires k < |s.core.conns| && s.core.conns[k].reading
    decreases |s.core.conns[k].unread|
  {
    if s.core.conns[k].unread == [] then Next(s, ReadEnds(k)) else ReadAll(Next(s, ReadNext(k)), k)
  }

  /** Step by step the reader sends the handler what its loop does: every message of the stream
      in order and then one disconnect. */
  lemma {:induction false} ReaderSendsEverything(s: Sys, k: nat)
    requires k < |s.core.conns| && s.core.conns[k].reading
    ensures var conn := s.core.conns[k];
            && ReadAll(s, k).inbox == s.inbox + ReadEvents(conn.peer, k, conn.unread)
            && ReadAll(s, k).core == s.core.(conns := s.core.conns[k := conn.(unread := [], reading := false)])
    decreases |s.core.conns[k].unread|
  {
    var conn := s.core.conns[k];
    if conn.unread == [] {
      assert ReadEvents(conn.peer, k, []) == [Disconnected(conn.peer, k)];
    } else {
      var s1 := Next(s, ReadNext(k));
      ReaderSendsEverything(s1, k);
      var first, rest := [NewIncomingMessage(conn.peer, k, conn.unread[0])], ReadEvents(conn.peer, k, conn.unread[1..]);
      assert ReadEvents(conn.peer, k, conn.unread) == first + rest;
      assert s1.inbox + rest == s.inbox + (first + rest);
    }
  }

  /** The state after a sequence of actions, if each was enabled in its turn. */
  function Run(acts: seq<Action>): Option<Sys> {
    if acts == [] then Some(INIT)
    else
      var before := Run(acts[..|acts| - 1]);
      if before.Some? && Enabled(before.value, acts[|acts| - 1])
      then Some(Next(before.value, acts[|acts| - 1]))
      else None
  }

  // ---------------------------------------------------------------------------------------
  // What every step keeps: the shape of the state
  // ---------------------------------------------------------------------------------------

  /** The dial attempt or reader whose end a queued event reports. */
  datatype Tag = OfDial(dial: nat) | OfReader(conn: nat) | Untagged

  function TagOf(e: Event): Tag {
    match e
    case ConnectionEstablished(_, Dialled(d), _) => OfDial(d)
    case ConnectionFailed(_, d, _) => OfDial(d)
    case Disconnected(_, k) => OfReader(k)
    case _ => Untagged
  }

  ghost predicate EventOk(c: Core, e: Event) {
    match e
    case ConnectionEstablished(peer, Dialled(d), _) => d < |c.dials| && c.dials[d] == Dial(peer, false)
    case ConnectionFailed(peer, d, _) => d < |c.dials| && c.dials[d] == Dial(peer, false)
    case Disconnected(peer, k) => k < |c.conns| && c.conns[k].peer == peer && !c.conns[k].reading
    case NewIncomingMessage(peer, k, _) => k < |c.conns| && c.conns[k].peer == peer
    case OutgoingConnectionReq(peer, req) => req.Connect? && req.to == peer
    case SendMessageReq(peer, req) => req.Send? && req.to == peer
    case _ => true
  }

  ghost predicate TagsUnique(inbox: seq<Event>) {
    forall i, j :: 0 <= i < j < |inbox| && TagOf(inbox[i]) == TagOf(inbox[j]) ==> TagOf(inbox[i]) == Untagged
  }

  /** Every sender in the table belongs to a connection of that peer whose writer still runs. */
  ghost predicate SendersOk(c: Core) {
    forall p :: p in c.peers && c.peers[p].Connected? ==>
      var k := c.peers[p].conn;
      k < |c.conns| && c.conns[k].peer.key == p && c.conns[k].writing
  }

  ghost predicate ConnsOk(c: Core) {
    forall k :: 0 <= k < |c.conns| ==>
      && (!c.conns[k].writing ==> c.conns[k].queue == [])
      && (!c.conns[k].reading ==> c.conns[k].unread == [])
  }

  ghost predicate Shape(s: Sys) {
    && (forall e :: e in s.inbox ==> EventOk(s.core, e))
    && TagsUnique(s.inbox)
    && SendersOk(s.core)
    && ConnsOk(s.core)
    && !s.core.panicked
  }

  lemma TagFreeStep(s: Sys, a: Action)
    requires Shape(s) && Enabled(s, a)
    ensures TagsUnique(Next(s, a).inbox)
  {
    var s' := Next(s, a);
    if a.HandleNext? {
      assert forall i :: 0 <= i < |s'.inbox| ==> s'.inbox[i] == s.inbox[i + 1];
    } else if s'.inbox != s.inbox {
      var e := s'.inbox[|s.inbox|];
      assert forall i :: 0 <= i < |s.inbox| ==> s'.inbox[i] == s.inbox[i] && s.inbox[i] in s.inbox;
      forall i | 0 <= i < |s.inbox| && TagOf(s.inbox[i]) == TagOf(e)
        ensures TagOf(e) == Untagged
      {
        assert EventOk(s.core, s.inbox[i]);
      }
    }
  }

  lemma HandleSenders(c: Core, e: Event)
    requires SendersOk(c) && ConnsOk(c) && !c.panicked
    ensures SendersOk(Handle(c, e)) && ConnsOk(Handle(c, e)) && !Handle(c, e).panicked
  {
  }

  lemma HandleEventOk(c: Core, e: Event, f: Event)
    requires EventOk(c, f)
    ensures EventOk(Handle(c, e), f)
  {
  }

  lemma HandleShape(s: Sys)
    requires Shape(s) && s.inbox != []
    ensures var s' := Next(s, HandleNext);
            && SendersOk(s'.core) && ConnsOk(s'.core) && !s'.core.panicked
            && (forall e :: e in s'.inbox ==> EventOk(s'.core, e))
  {
    HandleSenders(s.core, s.inbox[0]);
    forall e | e in s.inbox[1..]
      ensures EventOk(Handle(s.core, s.inbox[0]), e)
    {
      assert e in s.inbox;
      HandleEventOk(s.core, s.inbox[0], e);
    }
  }

  lemma ShapeStep(s: Sys, a: Action)
    requires Shape(s) && Enabled(s, a)
    ensures Shape(Next(s, a))
  {
    var s' := Next(s, a);
    TagFreeStep(s, a);
    if a.HandleNext? {
      HandleShape(s);
    } else {
      forall e | e in s'.inbox
        ensures EventOk(s'.core, e)
      {
        if e in s.inbox {
          assert EventOk(s.core, e);
        }
      }
    }
  }

  /** In every reachable state no enqueue has ever failed, and every entry that holds a sender
      holds it for a connection whose writer has not ended. */
  lemma {:induction false} WritersOutliveSenders(acts: seq<Action>)
    requires Run(acts).Some?
    ensures Shape(Run(acts).value)
  {
    if acts != [] {
      WritersOutliveSenders(acts[..|acts| - 1]);
      ShapeStep(Run(acts[..|acts| - 1]).value, acts[|acts| - 1]);
    }
  }
}
