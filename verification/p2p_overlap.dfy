/** Connections that overlap: what holds without them, and what goes wrong with them. */
module PeerOverlap {
  import opened Options
  import opened PeerHandler
  import opened PeerSystem
  import opened PeerConservation
  import opened PeerProgress

  /** The reader of connection `k` still runs, or its disconnect has not been handled. */
  ghost predicate Reporting(s: Sys, k: nat) {
    && k < |s.core.conns|
    && (s.core.conns[k].reading || exists e :: e in s.inbox && TagOf(e) == OfReader(k))
  }

  ghost function Attempts(s: Sys, p: PeerId): set<nat> {
    set d | 0 <= d < |s.core.dials| && Outstanding(s, d) && s.core.dials[d].peer.key == p
  }

  ghost function Readers(s: Sys, p: PeerId): set<nat> {
    set k | 0 <= k < |s.core.conns| && Reporting(s, k) && s.core.conns[k].peer.key == p
  }

  /** The step does not overlap: a connection from the listener is handled only when its peer
      has no entry. */
  predicate Apart(s: Sys, a: Action)
    requires Enabled(s, a)
  {
    a.HandleNext? && s.inbox[0].ConnectionEstablished? && s.inbox[0].source.Accepted?
    ==> s.inbox[0].peer.key !in s.core.peers
  }

  predicate AllApart(acts: seq<Action>)
    requires Run(acts).Some?
  {
    acts != [] ==>
      AllApart(acts[..|acts| - 1]) && Apart(Run(acts[..|acts| - 1]).value, acts[|acts| - 1])
  }

  /** No entry: nobody dials and nobody reads. `Connecting`: exactly one dial attempt and no
      reader. `Connected`: no dial attempt and exactly the reader of that connection. */
  ghost predicate ExactFor(s: Sys, p: PeerId) {
    if p !in s.core.peers then Attempts(s, p) == {} && Readers(s, p) == {}
    else match s.core.peers[p]
      case Connecting(_, _) => (exists d :: Attempts(s, p) == {d}) && Readers(s, p) == {}
      case Connected(k) => Attempts(s, p) == {} && Readers(s, p) == {k}
  }

  ghost predicate Exact(s: Sys) {
    forall p :: ExactFor(s, p)
  }

  ghost predicate Handles(s: Sys, a: Action, t: Tag) {
    a.HandleNext? && s.inbox != [] && TagOf(s.inbox[0]) == t
  }

  /** Dial attempts are settled only by handling their report, and then for good. */
  lemma SettledByHandling(s: Sys, a: Action, d: nat)
    requires Shape(s) && Enabled(s, a) && d < |s.core.dials|
    ensures d < |Next(s, a).core.dials| && Next(s, a).core.dials[d].peer == s.core.dials[d].peer
    ensures Outstanding(Next(s, a), d) <==> Outstanding(s, d) && !Handles(s, a, OfDial(d))
  {
    var s' := Next(s, a);
    if Handles(s, a, OfDial(d)) {
      assert s.inbox[0] in s.inbox && EventOk(s.core, s.inbox[0]);
      forall e | e in s'.inbox
        ensures TagOf(e) != OfDial(d)
      {
        var i :| 0 <= i < |s'.inbox| && s'.inbox[i] == e;
        assert s.inbox[i + 1] == e;
      }
    } else if Outstanding(s, d) {
      OutstandingStep(s, a, d);
    }
  }

  lemma ReaderSettledByHandling(s: Sys, a: Action, k: nat)
    requires Shape(s) && Enabled(s, a) && k < |s.core.conns|
    ensures k < |Next(s, a).core.conns| && Next(s, a).core.conns[k].peer == s.core.conns[k].peer
    ensures Reporting(Next(s, a), k) <==> Reporting(s, k) && !Handles(s, a, OfReader(k))
  {
    if a.HandleNext? {
      ReaderWhenHandling(s, k);
    } else {
      ReaderOtherwise(s, a, k);
    }
  }

  lemma ReaderOtherwise(s: Sys, a: Action, k: nat)
    requires Enabled(s, a) && !a.HandleNext? && k < |s.core.conns|
    ensures k < |Next(s, a).core.conns| && Next(s, a).core.conns[k].peer == s.core.conns[k].peer
    ensures Reporting(Next(s, a), k) <==> Reporting(s, k)
  {
    var s' := Next(s, a);
    assert forall e :: e in s.inbox ==> e in s'.inbox;
    if a.ReadEnds? {
      assert s'.inbox[|s.inbox|] in s'.inbox;
    }
  }

  lemma ReaderWhenHandling(s: Sys, k: nat)
    requires Shape(s) && s.inbox != [] && k < |s.core.conns|
    ensures var s' := Next(s, HandleNext);
            && k < |s'.core.conns| && s'.core.conns[k].peer == s.core.conns[k].peer
            && (Reporting(s', k) <==> Reporting(s, k) && TagOf(s.inbox[0]) != OfReader(k))
  {
    var s' := Next(s, HandleNext);
    if TagOf(s.inbox[0]) == OfReader(k) {
      assert s.inbox[0] in s.inbox && EventOk(s.core, s.inbox[0]);
      forall e | e in s'.inbox
        ensures TagOf(e) != OfReader(k)
      {
        var i :| 0 <= i < |s'.inbox| && s'.inbox[i] == e;
        assert s.inbox[i + 1] == e;
      }
    } else {
      assert forall e :: e in s.inbox && TagOf(e) == OfReader(k) ==> e in s'.inbox;
      assert forall e :: e in s'.inbox ==> e in s.inbox;
    }
  }

  /** How a step changes who dials and who reads for `p`. */
  lemma AttemptsStep(s: Sys, a: Action, p: PeerId)
    requires Shape(s) && Enabled(s, a)
    ensures Attempts(Next(s, a), p) ==
            (set d | d in Attempts(s, p) && !Handles(s, a, OfDial(d)))
            + (if |Next(s, a).core.dials| > |s.core.dials| && s.inbox[0].peer.key == p then {|s.core.dials|} else {})
  {
    var s' := Next(s, a);
    forall d | 0 <= d < |s'.core.dials|
      ensures d in Attempts(s', p) <==>
              (d in Attempts(s, p) && !Handles(s, a, OfDial(d))) || (d == |s.core.dials| && s.inbox[0].peer.key == p)
    {
      if d < |s.core.dials| {
        SettledByHandling(s, a, d);
      } else {
        assert Outstanding(s', d);
      }
    }
  }

  lemma ReadersStep(s: Sys, a: Action, p: PeerId)
    requires Shape(s) && Enabled(s, a)
    ensures Readers(Next(s, a), p) ==
            (set k | k in Readers(s, p) && !Handles(s, a, OfReader(k)))
            + (if |Next(s, a).core.conns| > |s.core.conns| && s.inbox[0].peer.key == p then {|s.core.conns|} else {})
  {
    var s' := Next(s, a);
    forall k | 0 <= k < |s'.core.conns|
      ensures k in Readers(s', p) <==>
              (k in Readers(s, p) && !Handles(s, a, OfReader(k))) || (k == |s.core.conns| && s.inbox[0].peer.key == p)
    {
      if k < |s.core.conns| {
        ReaderSettledByHandling(s, a, k);
      } else {
        assert Reporting(s', k);
      }
    }
  }

  lemma ExactStep(s: Sys, a: Action, p: PeerId)
    requires Shape(s) && Enabled(s, a) && Apart(s, a) && ExactFor(s, p)
    ensures ExactFor(Next(s, a), p)
  {
    if a.HandleNext? {
      ExactHandle(s, p);
    } else {
      AttemptsStep(s, a, p);
      ReadersStep(s, a, p);
    }
  }

  lemma ExactHandle(s: Sys, p: PeerId)
    requires Shape(s) && s.inbox != [] && Apart(s, HandleNext) && ExactFor(s, p)
    ensures ExactFor(Next(s, HandleNext), p)
  {
    AttemptsStep(s, HandleNext, p);
    ReadersStep(s, HandleNext, p);
    match TagOf(s.inbox[0]) {
      case OfDial(d) => ExactReport(s, p, d);
      case OfReader(k) => ExactDisconnect(s, p, k);
      case Untagged =>
    }
  }

  lemma ExactReport(s: Sys, p: PeerId, d: nat)
    requires Shape(s) && Handles(s, HandleNext, OfDial(d)) && ExactFor(s, p)
    ensures ExactFor(Next(s, HandleNext), p)
  {
    assert s.inbox[0] in s.inbox && EventOk(s.core, s.inbox[0]) && Outstanding(s, d);
    assert s.inbox[0].peer.key == p ==> d in Attempts(s, p);
    AttemptsStep(s, HandleNext, p);
    ReadersStep(s, HandleNext, p);
  }

  lemma ExactDisconnect(s: Sys, p: PeerId, k: nat)
    requires Shape(s) && Handles(s, HandleNext, OfReader(k)) && ExactFor(s, p)
    ensures ExactFor(Next(s, HandleNext), p)
  {
    assert s.inbox[0] in s.inbox && EventOk(s.core, s.inbox[0]) && Reporting(s, k);
    assert s.inbox[0].peer.key == p ==> k in Readers(s, p);
    AttemptsStep(s, HandleNext, p);
    ReadersStep(s, HandleNext, p);
  }

  /** Without overlap the table, the dial attempts and the readers correspond exactly after every
      run, so no peer is dialled twice at once, and no request is ever dropped: the receiver
      that `send_message` awaits always gets its answer or is still on its way. */
  lemma {:induction false} ExactWithoutOverlap(acts: seq<Action>)
    requires Run(acts).Some? && AllApart(acts)
    ensures Exact(Run(acts).value)
    ensures Run(acts).value.core.lost == []
  {
    if acts != [] {
      var front, a := acts[..|acts| - 1], acts[|acts| - 1];
      ExactWithoutOverlap(front);
      WritersOutliveSenders(front);
      var s := Run(front).value;
      forall p
        ensures ExactFor(Next(s, a), p)
      {
        ExactStep(s, a, p);
      }
      if a.HandleNext? && s.inbox[0].Disconnected? {
        var e := s.inbox[0];
        assert e in s.inbox && EventOk(s.core, e) && TagOf(e) == OfReader(e.conn);
        assert ExactFor(s, e.peer.key) && e.conn in Readers(s, e.peer.key);
      }
    }
  }

  /** The correspondence holds after every step of the run. */
  ghost predicate AlwaysExact(acts: seq<Action>)
    requires Run(acts).Some?
  {
    (acts != [] ==> AlwaysExact(acts[..|acts| - 1])) && Exact(Run(acts).value)
  }

  /** An accepted connection that is handled while its peer has an entry breaks the correspondence
      at once: the entry's dial attempt or its reader stays. */
  lemma OverlapBreaks(s: Sys)
    requires Shape(s) && s.inbox != [] && Exact(s) && !Apart(s, HandleNext)
    ensures !ExactFor(Next(s, HandleNext), s.inbox[0].peer.key)
  {
    hide Handle;
    var p := s.inbox[0].peer.key;
    AttemptsStep(s, HandleNext, p);
    ReadersStep(s, HandleNext, p);
    OverlapReplaces(s);
    assert ExactFor(s, p);
    if s.core.peers[p].Connecting? {
      var d :| Attempts(s, p) == {d};
      assert d in Attempts(Next(s, HandleNext), p);
    } else {
      var k := s.core.peers[p].conn;
      assert k in Readers(s, p) && k < |s.core.conns|;
      assert k in Readers(Next(s, HandleNext), p);
    }
  }

  lemma OverlapReplaces(s: Sys)
    requires s.inbox != [] && !Apart(s, HandleNext)
    ensures var p, peers' := s.inbox[0].peer.key, Next(s, HandleNext).core.peers;
            p in s.core.peers && p in peers' && peers'[p] == Connected(|s.core.conns|)
  {
  }

  /** The exact condition: the table, the dial attempts and the readers correspond after every step of
      a run exactly when no accepted connection is handled while its peer has an entry. */
  lemma {:induction false} ExactExactlyWhen(acts: seq<Action>)
    requires Run(acts).Some?
    ensures AlwaysExact(acts) <==> AllApart(acts)
  {
    hide Exact, Next, Enabled, Apart;
    if acts == [] {
      ExactWithoutOverlap(acts);
    } else {
      var front, a := acts[..|acts| - 1], acts[|acts| - 1];
      ExactExactlyWhen(front);
      WritersOutliveSenders(front);
      if AllApart(acts) {
        ExactWithoutOverlap(acts);
      } else if AllApart(front) {
        var s := Run(front).value;
        OverlapIsHandled(s, a);
        OverlapBreaks(s);
        BrokenFor(Next(s, a), s.inbox[0].peer.key);
      }
    }
  }

  lemma OverlapIsHandled(s: Sys, a: Action)
    requires Enabled(s, a) && !Apart(s, a)
    ensures a.HandleNext? && s.inbox != []
  {
  }

  lemma BrokenFor(s: Sys, p: PeerId)
    requires !ExactFor(s, p)
    ensures !Exact(s)
  {
  }

  /** Without overlap every send has its outcome once nothing but the environment can move. */
  lemma EverySendIsAnswered(acts: seq<Action>, i: nat)
    requires Run(acts).Some? && AllApart(acts) && Quiescent(Run(acts).value)
    requires i < |Run(acts).value.asked| && Run(acts).value.asked[i].Send?
    ensures var s := Run(acts).value; exists o :: Ended(s.core, s.asked[i], o)
    ensures var s := Run(acts).value; s.asked[i].notify ==> exists o :: Notice(i, o) in s.core.notices
  {
    var s := Run(acts).value;
    ExactWithoutOverlap(acts);
    AtRest(acts);
    NotifiedOnce(acts);
    var o :| Ended(s.core, s.asked[i], o);
    assert s.asked[i].notify ==> Notice(i, o) in s.core.notices;
  }

  lemma RunOn(acts: seq<Action>, s: Sys, a: Action) returns (acts': seq<Action>, s': Sys)
    requires Run(acts) == Some(s) && Enabled(s, a)
    ensures acts' == acts + [a] && s' == Next(s, a) && Run(acts') == Some(s')
  {
    acts', s' := acts + [a], Next(s, a);
    assert acts'[..|acts|] == acts;
  }

  /** What the two halves of the run below meet in. */
  ghost predicate TwiceConnected(s: Sys, peer: Peer) {
    && s.inbox == [] && |s.asked| == 1 && s.core.lost == []
    && s.core.peers == map[peer.key := Connected(1)]
    && s.core.dials == [Dial(peer, true)]
    && |s.core.conns| == 2
    && (forall k :: 0 <= k < 2 ==> s.core.conns[k].peer == peer && s.core.conns[k].reading && s.core.conns[k].unread == [])
  }

  lemma ConnectsTwiceWhileDialled(peer: Peer, message: Message) returns (acts: seq<Action>, s: Sys)
    ensures Run(acts) == Some(s) && TwiceConnected(s, peer)
  {
    acts, s := [], INIT;
    acts, s := RunOn(acts, s, AskSend(peer, message, true));
    acts, s := RunOn(acts, s, HandleNext);
    assert s.inbox == [] && s.core.dials == [Dial(peer, true)] && s.core.conns == [];
    acts, s := RunOn(acts, s, Accept(peer, []));
    acts, s := RunOn(acts, s, HandleNext);
    assert s.inbox == [] && s.core.peers == map[peer.key := Connected(0)];
    acts, s := RunOn(acts, s, Accept(peer, []));
    acts, s := RunOn(acts, s, HandleNext);
  }

  lemma FirstEnds(acts0: seq<Action>, s0: Sys, peer: Peer) returns (acts: seq<Action>, s: Sys)
    requires Run(acts0) == Some(s0) && TwiceConnected(s0, peer)
    ensures Run(acts) == Some(s)
    ensures s.inbox == [] && s.core.lost == [] && s.core.dials == s0.core.dials && s.asked == s0.asked
    ensures s.core.peers == map[]
    ensures |s.core.conns| == 2 && s.core.conns[1] == s0.core.conns[1]
  {
    acts, s := RunOn(acts0, s0, ReadEnds(0));
    assert s.inbox == [Disconnected(peer, 0)] && s.core.peers == s0.core.peers && s.core.conns[1] == s0.core.conns[1];
    var e := s.inbox[0];
    EndsEntry(s.core, e);
    acts, s := RunOn(acts, s, HandleNext);
  }

  /** A disconnect takes the only entry, of an open connection, and nothing else. */
  lemma EndsEntry(c: Core, e: Event)
    requires e.Disconnected? && e.peer.key in c.peers && c.peers == map[e.peer.key := c.peers[e.peer.key]]
    requires c.peers[e.peer.key].Connected?
    ensures Handle(c, e) == c.(peers := map[])
  {
  }

  lemma DialledAgain(acts0: seq<Action>, s0: Sys, peer: Peer, message: Message) returns (acts: seq<Action>, s: Sys)
    requires Run(acts0) == Some(s0) && s0.inbox == [] && |s0.asked| == 1 && s0.core.peers == map[]
    ensures Run(acts) == Some(s)
    ensures s.inbox == [] && s.core.lost == s0.core.lost && s.core.dials == s0.core.dials + [Dial(peer, true)]
    ensures WaitingOf(s.core.peers, peer.key) == [] && PendingOf(s.core.peers, peer.key) == [Send(1, true, peer, message)]
    ensures s.core.conns == s0.core.conns
  {
    acts, s := RunOn(acts0, s0, AskSend(peer, message, true));
    assert s.inbox == [SendMessageReq(peer, Send(1, true, peer, message))] && s.core.peers == map[];
    acts, s := RunOn(acts, s, HandleNext);
  }

  /** With overlap both claims fail: while a peer is being dialled it connects twice by itself; the
      first of these connections to end takes the entry with it, so that the next send dials the
      peer a second time at once, and the end of the other connection then drops that send with
      its notifier. */
  lemma OverlapDropsASend(peer: Peer, message: Message) returns (acts: seq<Action>, s: Sys)
    ensures Run(acts) == Some(s)
    ensures s.core.lost == [Send(1, true, peer, message)]
    ensures {0, 1} <= Attempts(s, peer.key)
  {
    var s0;
    acts, s0 := ConnectsTwiceWhileDialled(peer, message);
    acts, s := FirstEnds(acts, s0, peer);
    acts, s := DialledAgain(acts, s, peer, message);
    acts, s := RunOn(acts, s, ReadEnds(1));
    assert s.inbox == [Disconnected(peer, 1)];
    acts, s := RunOn(acts, s, HandleNext);
    assert Outstanding(s, 0) && Outstanding(s, 1);
  }
}
