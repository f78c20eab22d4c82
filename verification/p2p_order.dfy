/** Order: what each connection writes and delivers, read off the history of handled events
    alone, without the handler's table. */
module PeerOrder {
  import opened Options
  import opened Sequences
  import opened PeerHandler
  import opened PeerSystem

  // ---------------------------------------------------------------------------------------
  // Reference definitions over the history
  // ---------------------------------------------------------------------------------------

  /** How many connections the history opened; they are numbered in that order. */
  function Opened(hist: seq<Event>): nat {
    if hist == [] then 0
    else Opened(hist[..|hist| - 1]) + (if hist[|hist| - 1].ConnectionEstablished? then 1 else 0)
  }

  /** The event ends whatever entry its peer had. */
  predicate Ends(e: Event, p: PeerId) {
    (e.Disconnected? || e.ConnectionFailed? || e.ConnectionEstablished?) && e.peer.key == p
  }

  /** The connection opened for `p` since the last event that ended an entry of `p`, if any. */
  function Current(hist: seq<Event>, p: PeerId): Option<nat> {
    if hist == [] then None
    else
      var front, e := hist[..|hist| - 1], hist[|hist| - 1];
      if !Ends(e, p) then Current(front, p)
      else if e.ConnectionEstablished? then Some(Opened(front))
      else None
  }

  /** The sends handled for `p` since the last event that ended an entry of `p`. */
  function SendsSince(hist: seq<Event>, p: PeerId): seq<Request> {
    if hist == [] then []
    else
      var front, e := hist[..|hist| - 1], hist[|hist| - 1];
      if Ends(e, p) then []
      else if e.SendMessageReq? && e.peer.key == p then SendsSince(front, p) + [e.req]
      else SendsSince(front, p)
  }

  /** The connect requests with a notifier handled for `p` since the last event that ended an entry
      of `p`. */
  function WaitsSince(hist: seq<Event>, p: PeerId): seq<Request> {
    if hist == [] then []
    else
      var front, e := hist[..|hist| - 1], hist[|hist| - 1];
      if Ends(e, p) then []
      else if e.OutgoingConnectionReq? && e.req.notify && e.peer.key == p then WaitsSince(front, p) + [e.req]
      else WaitsSince(front, p)
  }

  /** The sends that belong to connection `k`: those left waiting when it opened, unless it
      replaced an open connection, and then those handled for its peer while it was current. */
  function Fed(hist: seq<Event>, k: nat): seq<Request> {
    if hist == [] then []
    else
      var front, e := hist[..|hist| - 1], hist[|hist| - 1];
      if e.ConnectionEstablished? && Opened(front) == k then
        (if Current(front, e.peer.key).None? then SendsSince(front, e.peer.key) else [])
      else if e.SendMessageReq? && Current(front, e.peer.key) == Some(k) then Fed(front, k) + [e.req]
      else Fed(front, k)
  }

  /** The stream connection `k` was opened with. */
  function StreamOf(hist: seq<Event>, k: nat): seq<Message> {
    if hist == [] then []
    else
      var front, e := hist[..|hist| - 1], hist[|hist| - 1];
      if e.ConnectionEstablished? && Opened(front) == k then e.stream else StreamOf(front, k)
  }

  // ---------------------------------------------------------------------------------------
  // Outgoing messages
  // ---------------------------------------------------------------------------------------

  /** The table's entry for `p` agrees with the history. */
  ghost predicate EntryMatches(s: Sys, p: PeerId) {
    && Current(s.hist, p) ==
         (if p in s.core.peers && s.core.peers[p].Connected? then Some(s.core.peers[p].conn) else None)
    && (Current(s.hist, p).None? ==> PendingOf(s.core.peers, p) == SendsSince(s.hist, p))
    && (Current(s.hist, p).None? ==> WaitingOf(s.core.peers, p) == WaitsSince(s.hist, p))
  }

  ghost predicate TableMatches(s: Sys) {
    && Opened(s.hist) == |s.core.conns|
    && forall p :: EntryMatches(s, p)
  }

  ghost predicate QueuesMatch(s: Sys) {
    forall k :: 0 <= k < |s.core.conns| ==>
      Requests(s.core.conns[k].tried) + s.core.conns[k].queue == Fed(s.hist, k)
  }

  /** A connection not opened yet has been fed nothing. */
  lemma {:induction false} FedUnopened(hist: seq<Event>, k: nat)
    requires k >= Opened(hist)
    ensures Fed(hist, k) == []
    ensures forall p :: Current(hist, p) != Some(k)
  {
    if hist != [] {
      FedUnopened(hist[..|hist| - 1], k);
    }
  }

  lemma HandleEntry(s: Sys, p: PeerId)
    requires Shape(s) && s.inbox != [] && Opened(s.hist) == |s.core.conns| && EntryMatches(s, p)
    ensures EntryMatches(Next(s, HandleNext), p)
  {
    var s' := Next(s, HandleNext);
    assert s'.hist[..|s'.hist| - 1] == s.hist;
    if s.inbox[0].peer.key != p {
      assert PendingOf(s'.core.peers, p) == PendingOf(s.core.peers, p);
      assert WaitingOf(s'.core.peers, p) == WaitingOf(s.core.peers, p);
    }
  }

  lemma HandleTable(s: Sys)
    requires Shape(s) && s.inbox != [] && TableMatches(s)
    ensures TableMatches(Next(s, HandleNext))
  {
    var s' := Next(s, HandleNext);
    assert s'.hist[..|s'.hist| - 1] == s.hist;
    forall p
      ensures EntryMatches(s', p)
    {
      HandleEntry(s, p);
    }
  }

  lemma HandleQueues(s: Sys)
    requires Shape(s) && s.inbox != [] && TableMatches(s) && QueuesMatch(s)
    ensures QueuesMatch(Next(s, HandleNext))
  {
    var s' := Next(s, HandleNext);
    assert s'.hist[..|s'.hist| - 1] == s.hist;
    FedUnopened(s.hist, |s.core.conns|);
    assert EntryMatches(s, s.inbox[0].peer.key);
  }

  lemma OrderStep(s: Sys, a: Action)
    requires Shape(s) && Enabled(s, a) && TableMatches(s) && QueuesMatch(s)
    ensures TableMatches(Next(s, a)) && QueuesMatch(Next(s, a))
  {
    var s' := Next(s, a);
    if a.HandleNext? {
      HandleTable(s);
      HandleQueues(s);
    } else if a.WriteNext? {
      var before, after := s.core.conns[a.conn], s'.core.conns[a.conn];
      assert Requests(after.tried) == Requests(before.tried) + [before.queue[0]];
      assert Requests(after.tried) + after.queue == Requests(before.tried) + before.queue;
    }
    if !a.HandleNext? {
      forall p
        ensures EntryMatches(s', p)
      {
        assert EntryMatches(s, p);
      }
    }
  }

  lemma {:induction false} OrderAlways(acts: seq<Action>)
    requires Run(acts).Some?
    ensures TableMatches(Run(acts).value) && QueuesMatch(Run(acts).value)
  {
    if acts != [] {
      OrderAlways(acts[..|acts| - 1]);
      WritersOutliveSenders(acts[..|acts| - 1]);
      OrderStep(Run(acts[..|acts| - 1]).value, acts[|acts| - 1]);
    }
  }

  /** First in, first out: after every run, what a connection's writer has tried followed by what
      is still queued is exactly the sends that belong to it, in the order they were handled. */
  lemma FirstInFirstOut(acts: seq<Action>, k: nat)
    requires Run(acts).Some? && k < |Run(acts).value.core.conns|
    ensures var s := Run(acts).value;
            Requests(s.core.conns[k].tried) + s.core.conns[k].queue == Fed(s.hist, k)
  {
    OrderAlways(acts);
  }

  /** The `o`-th event opened connection `k`. */
  predicate OpenedAt(hist: seq<Event>, k: nat, o: nat) {
    o < |hist| && hist[o].ConnectionEstablished? && Opened(hist[..o]) == k
  }

  ghost predicate PeersMatch(s: Sys) {
    && Opened(s.hist) == |s.core.conns|
    && forall k, o: nat :: 0 <= k < |s.core.conns| && OpenedAt(s.hist, k, o) ==> s.core.conns[k].peer == s.hist[o].peer
  }

  lemma {:induction false} OpenedBefore(hist: seq<Event>, k: nat, o: nat)
    requires OpenedAt(hist, k, o)
    ensures k < Opened(hist)
  {
    var front := hist[..|hist| - 1];
    if o < |front| {
      assert front[..o] == hist[..o];
      OpenedBefore(front, k, o);
    }
  }

  lemma PeersHandle(s: Sys)
    requires s.inbox != [] && PeersMatch(s)
    ensures PeersMatch(Next(s, HandleNext))
  {
    var s', e := Next(s, HandleNext), s.inbox[0];
    assert s'.hist[..|s.hist|] == s.hist;
    HandleOpens(s.core, e);
    forall k, o: nat | 0 <= k < |s'.core.conns| && OpenedAt(s'.hist, k, o)
      ensures s'.core.conns[k].peer == s'.hist[o].peer
    {
      if o < |s.hist| {
        assert s'.hist[..o] == s.hist[..o];
        OpenedBefore(s.hist, k, o);
      }
    }
  }

  /** Handling an event opens a connection to the peer that the event names, address included, or
      none, and leaves the peers of the others. */
  lemma HandleOpens(c: Core, e: Event)
    ensures var conns' := Handle(c, e).conns;
            && |conns'| == |c.conns| + (if e.ConnectionEstablished? then 1 else 0)
            && (forall k :: 0 <= k < |c.conns| ==> conns'[k].peer == c.conns[k].peer)
            && (e.ConnectionEstablished? ==> conns'[|c.conns|].peer == e.peer)
  {
    hide Tell, Tries, WaitingOf, PendingOf;
  }

  /** After every run each connection's peer, address included, is that of the event that opened it. */
  lemma {:induction false} ConnectionsKeepTheirPeers(acts: seq<Action>)
    requires Run(acts).Some?
    ensures PeersMatch(Run(acts).value)
  {
    hide Handle;
    if acts != [] {
      ConnectionsKeepTheirPeers(acts[..|acts| - 1]);
      if acts[|acts| - 1].HandleNext? {
        PeersHandle(Run(acts[..|acts| - 1]).value);
      } else {
        PeersKept(Run(acts[..|acts| - 1]).value, acts[|acts| - 1]);
      }
    }
  }

  lemma PeersKept(s: Sys, a: Action)
    requires Enabled(s, a) && !a.HandleNext?
    ensures Next(s, a).hist == s.hist && |Next(s, a).core.conns| == |s.core.conns|
    ensures forall k :: 0 <= k < |s.core.conns| ==> Next(s, a).core.conns[k].peer == s.core.conns[k].peer
  {
  }

  /** The sends of `p` among `events`, in order. */
  function SendsFor(events: seq<Event>, p: PeerId): seq<Request> {
    if events == [] then []
    else
      var front, e := events[..|events| - 1], events[|events| - 1];
      SendsFor(front, p) + (if e.SendMessageReq? && e.peer.key == p then [e.req] else [])
  }

  ghost predicate NoneEnds(hist: seq<Event>, p: PeerId, i: nat, j: nat)
    requires i <= j <= |hist|
  {
    forall m :: i <= m < j ==> !Ends(hist[m], p)
  }

  lemma {:induction false} SendsSinceIsStretch(hist: seq<Event>, p: PeerId) returns (i: nat)
    ensures i <= |hist| && NoneEnds(hist, p, i, |hist|)
    ensures SendsSince(hist, p) == SendsFor(hist[i..], p)
    ensures Current(hist, p).None? <==> i == 0 || !hist[i - 1].ConnectionEstablished?
    ensures i > 0 ==> Ends(hist[i - 1], p)
  {
    if hist == [] {
      i := 0;
    } else {
      var front, e := hist[..|hist| - 1], hist[|hist| - 1];
      if Ends(e, p) {
        i := |hist|;
      } else {
        i := SendsSinceIsStretch(front, p);
        assert hist[i..][..|hist| - i - 1] == front[i..];
      }
    }
  }

  /** The history around connection `k`: opened at `o`, its first sends handled from `i` on, and
      its entry ended at `j` or not yet. Nothing else ended an entry of its peer in between. */
  ghost predicate Stretch(hist: seq<Event>, k: nat, i: nat, o: nat, j: nat) {
    && i <= o < j <= |hist|
    && hist[o].ConnectionEstablished? && Opened(hist[..o]) == k
    && var p := hist[o].peer.key;
       && NoneEnds(hist, p, i, o) && NoneEnds(hist, p, o + 1, j)
       && (j < |hist| ==> Ends(hist[j], p))
       && (if Current(hist[..o], p).Some? then i == o else i == 0 || Ends(hist[i - 1], p))
  }

  /** The sends that belong to a connection are one stretch of the history: every send handled
      for its peer since the previous entry ended (or since the connection opened, if it replaced
      one), up to the event that ended its own entry. */
  lemma {:induction false} FedIsStretch(hist: seq<Event>, k: nat) returns (i: nat, o: nat, j: nat)
    requires k < Opened(hist)
    ensures Stretch(hist, k, i, o, j)
    ensures Fed(hist, k) == SendsFor(hist[i..j], hist[o].peer.key)
    ensures forall p :: Current(hist, p) == Some(k) <==> (p == hist[o].peer.key && j == |hist|)
  {
    var front := hist[..|hist| - 1];
    if k == Opened(front) {
      o, j := |hist| - 1, |hist|;
      i := StretchOpens(hist);
      FedUnopened(front, k);
      assert hist[..o] == front && hist[i..j] == hist[i..];
    } else {
      var j0;
      i, o, j0 := FedIsStretch(front, k);
      j := if j0 < |front| || Ends(hist[|hist| - 1], hist[o].peer.key) then j0 else |hist|;
      StretchGoesOn(hist, k, i, o, j0, j);
    }
  }

  lemma StretchOpens(hist: seq<Event>) returns (i: nat)
    requires hist != [] && hist[|hist| - 1].ConnectionEstablished?
    ensures var o := |hist| - 1;
            && Stretch(hist, Opened(hist[..o]), i, o, |hist|)
            && Fed(hist, Opened(hist[..o])) == SendsFor(hist[i..], hist[o].peer.key)
  {
    var o := |hist| - 1;
    var front, p := hist[..o], hist[o].peer.key;
    i := SendsSinceIsStretch(front, p);
    if Current(front, p).Some? {
      i := o;
      assert hist[o..][..0] == [];
    } else {
      assert hist[i..][..o - i] == front[i..];
    }
  }

  lemma StretchGoesOn(hist: seq<Event>, k: nat, i: nat, o: nat, j0: nat, j: nat)
    requires hist != []
    requires var front, e := hist[..|hist| - 1], hist[|hist| - 1];
             && k != Opened(front)
             && Stretch(front, k, i, o, j0)
             && Fed(front, k) == SendsFor(front[i..j0], front[o].peer.key)
             && (forall p :: Current(front, p) == Some(k) <==> (p == front[o].peer.key && j0 == |front|))
             && j == (if j0 < |front| || Ends(e, hist[o].peer.key) then j0 else |hist|)
    ensures Stretch(hist, k, i, o, j)
    ensures Fed(hist, k) == SendsFor(hist[i..j], hist[o].peer.key)
    ensures forall p :: Current(hist, p) == Some(k) <==> (p == hist[o].peer.key && j == |hist|)
  {
    hide NoneEnds, Opened;
    var front, e := hist[..|hist| - 1], hist[|hist| - 1];
    StretchExtends(hist, k, i, o, j0, j);
    assert front[i..j0] == hist[i..j0];
    if j != j0 {
      assert hist[i..j][..j - i - 1] == front[i..j0];
      assert hist[i..j][j - i - 1] == e;
    }
    if e.SendMessageReq? {
      assert Current(front, e.peer.key) == Some(k) <==> (e.peer.key == hist[o].peer.key && j0 == |front|);
    }
    forall p
      ensures Current(hist, p) == Some(k) <==> (p == hist[o].peer.key && j == |hist|)
    {
      assert Current(front, p) == Some(k) <==> (p == front[o].peer.key && j0 == |front|);
    }
  }

  lemma StretchExtends(hist: seq<Event>, k: nat, i: nat, o: nat, j0: nat, j: nat)
    requires hist != []
    requires var front, e := hist[..|hist| - 1], hist[|hist| - 1];
             && Stretch(front, k, i, o, j0)
             && j == (if j0 < |front| || Ends(e, hist[o].peer.key) then j0 else |hist|)
    ensures Stretch(hist, k, i, o, j)
  {
    var front := hist[..|hist| - 1];
    assert front[..o] == hist[..o];
    assert forall m :: 0 <= m < |front| ==> front[m] == hist[m];
  }

  // ---------------------------------------------------------------------------------------
  // Incoming messages
  // ---------------------------------------------------------------------------------------

  function DeliveredFrom(ds: seq<Delivery>, k: nat): seq<Message> {
    if ds == [] then []
    else
      var d := ds[|ds| - 1];
      DeliveredFrom(ds[..|ds| - 1], k) + (if d.conn == k then [d.message] else [])
  }

  function InboxFrom(inbox: seq<Event>, k: nat): seq<Message> {
    if inbox == [] then []
    else
      var e := inbox[|inbox| - 1];
      InboxFrom(inbox[..|inbox| - 1], k) + MessageFrom(e, k)
  }

  function MessageFrom(e: Event, k: nat): seq<Message> {
    if e.NewIncomingMessage? && e.conn == k then [e.message] else []
  }

  lemma InboxFromBack(inbox: seq<Event>, e: Event, k: nat)
    ensures InboxFrom(inbox + [e], k) == InboxFrom(inbox, k) + MessageFrom(e, k)
  {
    hide MessageFrom;
    assert (inbox + [e])[..|inbox|] == inbox;
  }

  lemma {:induction false} InboxFromFront(e: Event, rest: seq<Event>, k: nat)
    ensures InboxFrom([e] + rest, k) == MessageFrom(e, k) + InboxFrom(rest, k)
    decreases |rest|
  {
    if rest == [] {
      assert [e] + rest == [] + [e];
      InboxFromBack([], e, k);
    } else {
      hide InboxFrom, MessageFrom;
      var front, last := FrontAndLast(rest);
      InboxFromFront(e, front, k);
      Associative([e], front, [last]);
      InboxFromBack([e] + front, last, k);
      InboxFromBack(front, last, k);
      Associative(MessageFrom(e, k), InboxFrom(front, k), MessageFrom(last, k));
    }
  }

  /** For connection `k`, nothing of the stream is lost, repeated or out of order. */
  ghost predicate StreamKept(s: Sys, k: nat)
    requires k < |s.core.conns|
  {
    DeliveredFrom(s.core.delivered, k) + InboxFrom(s.inbox, k) + s.core.conns[k].unread == StreamOf(s.hist, k)
  }

  /** Messages name the peer of the connection they were read from. */
  ghost predicate DeliveriesOk(c: Core) {
    forall d :: d in c.delivered ==> d.conn < |c.conns| && d.peer == c.conns[d.conn].peer
  }

  ghost predicate StreamsKept(s: Sys) {
    && Opened(s.hist) == |s.core.conns|
    && DeliveriesOk(s.core)
    && forall k :: 0 <= k < |s.core.conns| ==> StreamKept(s, k)
  }

  lemma {:induction false} NothingFromUnopened(s: Sys, ds: seq<Delivery>, inbox: seq<Event>, k: nat)
    requires k >= |s.core.conns|
    requires forall d :: d in ds ==> d.conn < |s.core.conns|
    requires forall e :: e in inbox ==> EventOk(s.core, e)
    ensures DeliveredFrom(ds, k) == [] && InboxFrom(inbox, k) == []
    decreases |ds| + |inbox|
  {
    if ds != [] {
      assert ds[|ds| - 1] in ds;
      NothingFromUnopened(s, ds[..|ds| - 1], [], k);
    }
    if inbox != [] {
      assert inbox[|inbox| - 1] in inbox;
      NothingFromUnopened(s, [], inbox[..|inbox| - 1], k);
    }
  }

  lemma HandleStream(s: Sys, k: nat)
    requires s.inbox != [] && Opened(s.hist) == |s.core.conns|
    requires k < |s.core.conns| && StreamKept(s, k)
    ensures k < |Next(s, HandleNext).core.conns| && StreamKept(Next(s, HandleNext), k)
  {
    hide StreamOf, DeliveredFrom, InboxFrom, MessageFrom, Handle, Opened;
    var e := s.inbox[0];
    HandleKeepsReader(s, k);
    StreamFixed(s.hist, e, k);
    assert s.inbox == [e] + s.inbox[1..];
    InboxFromFront(e, s.inbox[1..], k);
    DeliveredStep(s, k);
    Reassociate(DeliveredFrom(s.core.delivered, k), MessageFrom(e, k), InboxFrom(s.inbox[1..], k), s.core.conns[k].unread);
  }

  lemma HandleKeepsReader(s: Sys, k: nat)
    requires s.inbox != [] && k < |s.core.conns|
    ensures k < |Next(s, HandleNext).core.conns|
    ensures Next(s, HandleNext).core.conns[k].unread == s.core.conns[k].unread
  {
  }

  lemma StreamFixed(hist: seq<Event>, e: Event, k: nat)
    requires k < Opened(hist)
    ensures StreamOf(hist + [e], k) == StreamOf(hist, k)
  {
    assert (hist + [e])[..|hist|] == hist;
  }

  lemma DeliveredStep(s: Sys, k: nat)
    requires s.inbox != []
    ensures DeliveredFrom(Next(s, HandleNext).core.delivered, k) ==
            DeliveredFrom(s.core.delivered, k) + MessageFrom(s.inbox[0], k)
  {
    var after := Next(s, HandleNext).core.delivered;
    if s.inbox[0].NewIncomingMessage? {
      assert after[..|after| - 1] == s.core.delivered;
    } else {
      assert after == s.core.delivered;
    }
  }

  lemma NewStream(s: Sys)
    requires Shape(s) && s.inbox != [] && StreamsKept(s) && s.inbox[0].ConnectionEstablished?
    ensures StreamKept(Next(s, HandleNext), |s.core.conns|)
  {
    var s', e, k := Next(s, HandleNext), s.inbox[0], |s.core.conns|;
    assert s'.hist[..|s'.hist| - 1] == s.hist;
    assert s.inbox == [e] + s.inbox[1..];
    InboxFromFront(e, s.inbox[1..], k);
    DeliveredStep(s, k);
    NothingFromUnopened(s, s.core.delivered, s.inbox, k);
  }

  lemma StreamsHandle(s: Sys)
    requires Shape(s) && s.inbox != [] && StreamsKept(s)
    ensures StreamsKept(Next(s, HandleNext))
  {
    var s' := Next(s, HandleNext);
    assert s'.hist[..|s'.hist| - 1] == s.hist;
    assert s.inbox[0] in s.inbox && EventOk(s.core, s.inbox[0]);
    forall k | 0 <= k < |s'.core.conns|
      ensures StreamKept(s', k)
    {
      if k < |s.core.conns| {
        assert StreamKept(s, k);
        HandleStream(s, k);
      } else {
        NewStream(s);
      }
    }
  }

  lemma StreamsStep(s: Sys, a: Action)
    requires Shape(s) && Enabled(s, a) && StreamsKept(s)
    ensures StreamsKept(Next(s, a))
  {
    var s' := Next(s, a);
    if a.HandleNext? {
      StreamsHandle(s);
    } else {
      forall k | 0 <= k < |s'.core.conns|
        ensures StreamKept(s', k)
      {
        StreamUnhandled(s, a, k);
      }
    }
  }

  /** What a step of a reader moves from its stream to the event channel. */
  function ReadBy(s: Sys, a: Action, k: nat): seq<Message>
    requires Enabled(s, a)
  {
    if a == ReadNext(k) then [s.core.conns[k].unread[0]] else []
  }

  lemma InboxGains(s: Sys, a: Action, k: nat)
    requires Enabled(s, a) && !a.HandleNext?
    ensures InboxFrom(Next(s, a).inbox, k) == InboxFrom(s.inbox, k) + ReadBy(s, a, k)
  {
    hide InboxFrom;
    var s' := Next(s, a);
    if s'.inbox != s.inbox {
      InboxFromBack(s.inbox, s'.inbox[|s.inbox|], k);
    }
  }

  lemma UnreadLoses(s: Sys, a: Action, k: nat)
    requires Enabled(s, a) && !a.HandleNext? && k < |s.core.conns|
    ensures |Next(s, a).core.conns| == |s.core.conns|
    ensures s.core.conns[k].unread == ReadBy(s, a, k) + Next(s, a).core.conns[k].unread
    ensures Next(s, a).hist == s.hist && Next(s, a).core.delivered == s.core.delivered
  {
  }

  lemma StreamUnhandled(s: Sys, a: Action, k: nat)
    requires Enabled(s, a) && !a.HandleNext?
    requires k < |s.core.conns| && StreamKept(s, k)
    ensures k < |Next(s, a).core.conns| && StreamKept(Next(s, a), k)
  {
    hide StreamOf, DeliveredFrom, InboxFrom, MessageFrom, Next, ReadBy, Enabled;
    InboxGains(s, a, k);
    UnreadLoses(s, a, k);
    Reassociate(DeliveredFrom(s.core.delivered, k), InboxFrom(s.inbox, k), ReadBy(s, a, k), Next(s, a).core.conns[k].unread);
  }

  lemma Reassociate(d: seq<Message>, i: seq<Message>, m: seq<Message>, u: seq<Message>)
    ensures d + (i + m) + u == d + i + (m + u)
    ensures (d + i) + m + u == d + (i + m) + u
  {
  }

  /** After every run, the messages passed up from a connection, then those still queued as
      events, then those not yet read are the connection's stream, and each carries its peer. */
  lemma {:induction false} IncomingInOrder(acts: seq<Action>)
    requires Run(acts).Some?
    ensures StreamsKept(Run(acts).value)
  {
    if acts != [] {
      IncomingInOrder(acts[..|acts| - 1]);
      WritersOutliveSenders(acts[..|acts| - 1]);
      StreamsStep(Run(acts[..|acts| - 1]).value, acts[|acts| - 1]);
    }
  }
}
