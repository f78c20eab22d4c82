/** How requests end, read off the history of handled events: who is told what, which requests are
    dropped, and whose dial attempt an error comes from. */
module PeerOutcomes {
  import opened Options
  import opened Sequences
  import opened PeerHandler
  import opened PeerSystem
  import opened PeerConservation
  import opened PeerOrder
  import opened PeerProgress
  import opened PeerOverlap

  // ---------------------------------------------------------------------------------------
  // Reference definitions over the history
  // ---------------------------------------------------------------------------------------

  /** The requests that wait for a connection to `p`: nothing once there is one. */
  function Held(hist: seq<Event>, p: PeerId): seq<Request> {
    if Current(hist, p).None? then WaitsSince(hist, p) + SendsSince(hist, p) else []
  }

  /** What the disconnects of the history drop. */
  function Dropped(hist: seq<Event>): seq<Request> {
    if hist == [] then []
    else
      var front, e := hist[..|hist| - 1], hist[|hist| - 1];
      Dropped(front) + (if e.Disconnected? then Held(front, e.peer.key) else [])
  }

  /** What the failed dial attempts of the history fail. */
  function Failures(hist: seq<Event>): seq<Try> {
    if hist == [] then []
    else
      var front, e := hist[..|hist| - 1], hist[|hist| - 1];
      Failures(front) + (if e.ConnectionFailed? then Tries(Held(front, e.peer.key), Err(e.reason)) else [])
  }

  /** The connect requests that the opened connections of the history answer. */
  function Greetings(hist: seq<Event>): seq<Request> {
    if hist == [] then []
    else
      var front, e := hist[..|hist| - 1], hist[|hist| - 1];
      Greetings(front)
      + (if e.ConnectionEstablished? && Current(front, e.peer.key).None? then WaitsSince(front, e.peer.key) else [])
  }

  ghost predicate LogsMatch(s: Sys) {
    s.core.lost == Dropped(s.hist) && s.core.failed == Failures(s.hist) && s.core.greeted == Greetings(s.hist)
  }

  lemma EntryHeld(s: Sys, p: PeerId)
    requires TableMatches(s)
    ensures Held(s.hist, p) == WaitingOf(s.core.peers, p) + PendingOf(s.core.peers, p)
    ensures (if Current(s.hist, p).None? then WaitsSince(s.hist, p) else []) == WaitingOf(s.core.peers, p)
  {
    assert EntryMatches(s, p);
  }

  lemma TriesInOrder(a: seq<Request>, b: seq<Request>, outcome: Outcome)
    ensures Tries(a + b, outcome) == Tries(a, outcome) + Tries(b, outcome)
  {
  }

  /** How handling an event extends the logs. */
  lemma HandleLogs(c: Core, e: Event)
    ensures var c', p := Handle(c, e), e.peer.key;
            var held := WaitingOf(c.peers, p) + PendingOf(c.peers, p);
            && c'.notices == c.notices + (match e
                                          case ConnectionFailed(_, _, reason) => Tell(held, Err(reason))
                                          case ConnectionEstablished(_, _, _) => Tell(WaitingOf(c.peers, p), Ok)
                                          case _ => [])
            && c'.lost == c.lost + (if e.Disconnected? then held else [])
            && c'.failed == c.failed + (if e.ConnectionFailed? then Tries(held, Err(e.reason)) else [])
            && c'.greeted == c.greeted + (if e.ConnectionEstablished? then WaitingOf(c.peers, p) else [])
  {
    hide WaitingOf, PendingOf, Tell, Tries;
    var waiting, pending := WaitingOf(c.peers, e.peer.key), PendingOf(c.peers, e.peer.key);
    match e {
      case ConnectionFailed(_, _, reason) =>
        TellInOrder(waiting, pending, Err(reason));
        Associative(c.notices, Tell(waiting, Err(reason)), Tell(pending, Err(reason)));
        TriesInOrder(waiting, pending, Err(reason));
        Associative(c.failed, Tries(waiting, Err(reason)), Tries(pending, Err(reason)));
      case Disconnected(_, _) =>
        Associative(c.lost, waiting, pending);
      case _ =>
    }
  }

  lemma LogsStep(s: Sys)
    requires s.inbox != [] && TableMatches(s) && LogsMatch(s)
    ensures LogsMatch(Next(s, HandleNext))
  {
    hide Handle, WaitingOf, PendingOf, WaitsSince, SendsSince, Held, Current, TableMatches;
    var s' := Next(s, HandleNext);
    assert s'.hist[..|s'.hist| - 1] == s.hist;
    EntryHeld(s, s.inbox[0].peer.key);
    HandleLogs(s.core, s.inbox[0]);
  }

  /** After every run the handler's logs are what the history alone says. */
  lemma {:induction false} LogsAlways(acts: seq<Action>)
    requires Run(acts).Some?
    ensures TableMatches(Run(acts).value) && LogsMatch(Run(acts).value)
  {
    hide TableMatches, QueuesMatch, LogsMatch;
    OrderAlways(acts);
    if acts != [] {
      var front := acts[..|acts| - 1];
      LogsAlways(front);
      if acts[|acts| - 1].HandleNext? {
        LogsStep(Run(front).value);
      } else {
        LogsUntouched(Run(front).value, acts[|acts| - 1]);
      }
    } else {
      LogsAtStart();
    }
  }

  lemma LogsAtStart()
    ensures LogsMatch(INIT)
  {
  }

  lemma LogsUntouched(s: Sys, a: Action)
    requires Enabled(s, a) && !a.HandleNext? && LogsMatch(s)
    ensures LogsMatch(Next(s, a))
  {
  }

  // ---------------------------------------------------------------------------------------
  // Dropped requests
  // ---------------------------------------------------------------------------------------

  /** The event asks for a connection to `p` on behalf of somebody who can be left without one. */
  predicate Asks(e: Event, p: PeerId) {
    (e.SendMessageReq? || (e.OutgoingConnectionReq? && e.req.notify)) && e.peer.key == p
  }

  /** Somebody asked for `p`, and nothing has ended an entry of `p` since. */
  ghost predicate AskedSince(hist: seq<Event>, p: PeerId) {
    exists j :: 0 <= j < |hist| && Asks(hist[j], p) && NoneEnds(hist, p, j, |hist|)
  }

  lemma {:induction false} HeldNonempty(hist: seq<Event>, p: PeerId)
    ensures WaitsSince(hist, p) + SendsSince(hist, p) != [] <==> AskedSince(hist, p)
  {
    if hist != [] {
      var front, e := hist[..|hist| - 1], hist[|hist| - 1];
      HeldNonempty(front, p);
      if Asks(e, p) {
        assert NoneEnds(hist, p, |front|, |hist|);
      } else if !Ends(e, p) {
        AskedBefore(hist, p);
      }
    }
  }

  lemma AskedBefore(hist: seq<Event>, p: PeerId)
    requires hist != [] && !Asks(hist[|hist| - 1], p) && !Ends(hist[|hist| - 1], p)
    ensures AskedSince(hist, p) <==> AskedSince(hist[..|hist| - 1], p)
  {
    var front := hist[..|hist| - 1];
    if j :| 0 <= j < |front| && Asks(front[j], p) && NoneEnds(front, p, j, |front|) {
      assert Asks(hist[j], p) && NoneEnds(hist, p, j, |hist|);
    }
    if j :| 0 <= j < |hist| && Asks(hist[j], p) && NoneEnds(hist, p, j, |hist|) {
      assert Asks(front[j], p) && NoneEnds(front, p, j, |front|);
    }
  }

  /** The `m`-th event is a disconnect for a peer that has no open connection. */
  predicate StaleAt(hist: seq<Event>, m: nat)
    requires m < |hist|
  {
    hist[m].Disconnected? && Current(hist[..m], hist[m].peer.key).None?
  }

  ghost predicate DropsAt(hist: seq<Event>, m: nat, r: Request) {
    m < |hist| && StaleAt(hist, m) && r in Held(hist[..m], hist[m].peer.key)
  }

  lemma {:induction false} DroppedAt(hist: seq<Event>, r: Request)
    ensures r in Dropped(hist) <==> exists m: nat :: DropsAt(hist, m, r)
  {
    if hist != [] {
      var front, last := hist[..|hist| - 1], |hist| - 1;
      DroppedAt(front, r);
      forall m: nat | m < last
        ensures DropsAt(hist, m, r) <==> DropsAt(front, m, r)
      {
        assert hist[..m] == front[..m];
      }
      assert r in Dropped(hist) <==> r in Dropped(front) || DropsAt(hist, last, r);
      if r in Dropped(front) {
        var m: nat :| DropsAt(front, m, r);
        assert DropsAt(hist, m, r);
      }
    }
  }

  lemma {:induction false} NothingDropped(hist: seq<Event>)
    ensures Dropped(hist) == [] <==>
              forall m :: 0 <= m < |hist| && StaleAt(hist, m) ==> !AskedSince(hist[..m], hist[m].peer.key)
  {
    if hist != [] {
      var front, last := hist[..|hist| - 1], |hist| - 1;
      NothingDropped(front);
      HeldNonempty(front, hist[last].peer.key);
      forall m | 0 <= m < last
        ensures (StaleAt(hist, m) <==> StaleAt(front, m)) && hist[..m] == front[..m]
      {
        assert hist[..m] == front[..m];
      }
      assert StaleAt(hist, last) ==> Held(front, hist[last].peer.key) == [] || AskedSince(hist[..last], hist[last].peer.key);
    }
  }

  /** A run drops nothing exactly when it never handles a disconnect for a peer without an open
      connection to which a send or a connect request with a notifier was handled since its last
      entry ended; and a request is dropped exactly when it waits at such a disconnect. */
  lemma DroppedExactlyWhen(acts: seq<Action>)
    requires Run(acts).Some?
    ensures var s := Run(acts).value;
            && (s.core.lost == [] <==>
                  forall m :: 0 <= m < |s.hist| && StaleAt(s.hist, m) ==> !AskedSince(s.hist[..m], s.hist[m].peer.key))
            && (forall r :: r in s.core.lost <==> exists m: nat :: DropsAt(s.hist, m, r))
  {
    LogsAlways(acts);
    var hist := Run(acts).value.hist;
    NothingDropped(hist);
    forall r
      ensures r in Dropped(hist) <==> exists m: nat :: DropsAt(hist, m, r)
    {
      DroppedAt(hist, r);
    }
  }

  /** Once only the environment can move, a send is without an outcome exactly when a disconnect
      for a peer without an open connection was handled while the send waited for one. Whoever awaits
      its notifier then panics instead of getting an answer. */
  lemma UnansweredExactlyWhen(acts: seq<Action>, i: nat)
    requires Run(acts).Some? && Quiescent(Run(acts).value)
    requires i < |Run(acts).value.asked| && Run(acts).value.asked[i].Send?
    ensures var s := Run(acts).value;
            (forall o :: !Ended(s.core, s.asked[i], o)) <==> exists m: nat :: DropsAt(s.hist, m, s.asked[i])
  {
    AtRest(acts);
    DroppedExactlyWhen(acts);
  }

  // ---------------------------------------------------------------------------------------
  // Notifiers
  // ---------------------------------------------------------------------------------------

  /** A sink of a connection to the request's own peer gave this answer to its message. */
  ghost predicate SinkSaid(s: Sys, r: Request, o: Outcome) {
    exists k :: 0 <= k < |s.core.conns| && s.core.conns[k].peer.key == r.to.key && Try(r, o) in s.core.conns[k].tried
  }

  /** The `m`-th event is a failed dial attempt to the request's own peer, handled while the request
      waited for a connection. */
  ghost predicate FailsAt(hist: seq<Event>, m: nat, r: Request, reason: Reason) {
    && m < |hist| && hist[m].ConnectionFailed? && hist[m].reason == reason
    && hist[m].peer.key == r.to.key && r in Held(hist[..m], r.to.key)
  }

  /** The `m`-th event opened a connection to the request's own peer while the request waited. */
  ghost predicate OpensAt(hist: seq<Event>, m: nat, r: Request) {
    && m < |hist| && hist[m].ConnectionEstablished?
    && hist[m].peer.key == r.to.key && r in Held(hist[..m], r.to.key)
  }

  /** Requests are handled for the peer they were made for. */
  ghost predicate OwnPeers(hist: seq<Event>) {
    forall m :: 0 <= m < |hist| ==>
      match hist[m]
      case SendMessageReq(peer, req) => req.Send? && req.to == peer
      case OutgoingConnectionReq(peer, req) => req.Connect? && req.to == peer
      case _ => true
  }

  lemma {:induction false} OwnPeersAlways(acts: seq<Action>)
    requires Run(acts).Some?
    ensures OwnPeers(Run(acts).value.hist)
  {
    if acts != [] {
      var front := acts[..|acts| - 1];
      OwnPeersAlways(front);
      WritersOutliveSenders(front);
      var s := Run(front).value;
      if acts[|acts| - 1].HandleNext? {
        assert s.inbox[0] in s.inbox && EventOk(s.core, s.inbox[0]);
      }
    }
  }

  lemma {:induction false} HeldForOwnPeer(hist: seq<Event>, p: PeerId, r: Request)
    requires OwnPeers(hist)
    ensures r in WaitsSince(hist, p) ==> r.Connect? && r.to.key == p
    ensures r in SendsSince(hist, p) ==> r.Send? && r.to.key == p
  {
    if hist != [] {
      HeldForOwnPeer(hist[..|hist| - 1], p, r);
    }
  }

  lemma {:induction false} FailuresAt(hist: seq<Event>, r: Request, reason: Reason)
    requires OwnPeers(hist)
    ensures Try(r, Err(reason)) in Failures(hist) <==> exists m: nat :: FailsAt(hist, m, r, reason)
  {
    if hist != [] {
      var front, last := hist[..|hist| - 1], |hist| - 1;
      FailuresAt(front, r, reason);
      forall m: nat | m < last
        ensures FailsAt(hist, m, r, reason) <==> FailsAt(front, m, r, reason)
      {
        assert hist[..m] == front[..m];
      }
      var p := hist[last].peer.key;
      HeldForOwnPeer(front, p, r);
      if hist[last].ConnectionFailed? {
        TriesExact(Held(front, p), Err(hist[last].reason));
      }
      assert Try(r, Err(reason)) in Failures(hist) <==> Try(r, Err(reason)) in Failures(front) || FailsAt(hist, last, r, reason);
      if Try(r, Err(reason)) in Failures(front) {
        var m: nat :| FailsAt(front, m, r, reason);
        assert FailsAt(hist, m, r, reason);
      }
    }
  }

  lemma {:induction false} GreetingsAt(hist: seq<Event>, r: Request)
    requires OwnPeers(hist)
    ensures r in Greetings(hist) <==> r.Connect? && exists m: nat :: OpensAt(hist, m, r)
  {
    if hist != [] {
      var front, last := hist[..|hist| - 1], |hist| - 1;
      GreetingsAt(front, r);
      forall m: nat | m < last
        ensures OpensAt(hist, m, r) <==> OpensAt(front, m, r)
      {
        assert hist[..m] == front[..m];
      }
      HeldForOwnPeer(front, hist[last].peer.key, r);
      assert r in Greetings(hist) <==> r in Greetings(front) || (r.Connect? && OpensAt(hist, last, r));
      if r.Connect? && exists m: nat :: OpensAt(front, m, r) {
        var m: nat :| OpensAt(front, m, r);
        assert OpensAt(hist, m, r);
      }
    }
  }

  /** What calls for a notice: a send is told what the sink of a connection to its own peer said, a
      connect request that a connection to its peer was opened while it waited, and either one the
      reason for which a dial attempt to its peer failed while it waited. */
  ghost predicate Cause(s: Sys, r: Request, o: Outcome) {
    || (r.Send? && SinkSaid(s, r, o))
    || (r.Connect? && o.Ok? && exists m: nat :: OpensAt(s.hist, m, r))
    || (o.Err? && exists m: nat :: FailsAt(s.hist, m, r, o.reason))
  }

  /** No notifier fires twice, and one fires with an outcome exactly when there is a cause for it. */
  lemma Notification(acts: seq<Action>)
    requires Run(acts).Some?
    ensures var s := Run(acts).value;
            && NoticesUnique(s.core.notices)
            && (forall i: nat, o :: Notice(i, o) in s.core.notices <==>
                  (i < |s.asked| && s.asked[i].notify && Cause(s, s.asked[i], o)))
  {
    hide Cause, Ended;
    var s := Run(acts).value;
    NotifiedOnce(acts);
    forall i: nat, o | i < |s.asked|
      ensures Ended(s.core, s.asked[i], o) <==> Cause(s, s.asked[i], o)
    {
      EndedByCause(acts, s.asked[i], o);
    }
  }

  lemma EndedByCause(acts: seq<Action>, r: Request, o: Outcome)
    requires Run(acts).Some?
    ensures var s := Run(acts).value; Ended(s.core, r, o) <==> Cause(s, r, o)
  {
    hide FailsAt, OpensAt;
    var s := Run(acts).value;
    var place := LinkedAlways(acts);
    LogsAlways(acts);
    OwnPeersAlways(acts);
    GreetingsAt(s.hist, r);
    if o.Err? {
      FailuresAt(s.hist, r, o.reason);
    }
    if k :| 0 <= k < |s.core.conns| && Try(r, o) in s.core.conns[k].tried {
      assert ConnKinds(s.core.conns[k]);
    }
  }

  // ---------------------------------------------------------------------------------------
  // Whose dial attempt
  // ---------------------------------------------------------------------------------------

  /** How many dial attempts the history started; they are numbered in that order. */
  function Started(hist: seq<Event>): nat
    decreases |hist|
  {
    if hist == [] then 0
    else
      var front, e := hist[..|hist| - 1], hist[|hist| - 1];
      Started(front) + (if StartsDial(front, e) then 1 else 0)
  }

  predicate StartsDial(hist: seq<Event>, e: Event)
    decreases |hist|, 1
  {
    && (e.SendMessageReq? || e.OutgoingConnectionReq?)
    && Current(hist, e.peer.key).None? && DialFor(hist, e.peer.key).None?
  }

  /** The dial attempt started for the requests that wait for a connection to `p` now. */
  function DialFor(hist: seq<Event>, p: PeerId): Option<nat>
    decreases |hist|, 0
  {
    if hist == [] then None
    else
      var front, e := hist[..|hist| - 1], hist[|hist| - 1];
      if Ends(e, p) then None
      else if e.peer.key == p && StartsDial(front, e) then Some(Started(front))
      else DialFor(front, p)
  }

  /** Each `Connecting` entry has a dial attempt of its own, which runs or has its report queued. */
  ghost predicate DialMatches(s: Sys, p: PeerId) {
    match DialFor(s.hist, p)
    case None => p in s.core.peers ==> s.core.peers[p].Connected?
    case Some(d) =>
      p in s.core.peers && s.core.peers[p].Connecting? && Outstanding(s, d) && s.core.dials[d].peer.key == p
  }

  ghost predicate DialsMatch(s: Sys) {
    Started(s.hist) == |s.core.dials| && forall p :: DialMatches(s, p)
  }

  /** What handling an event does to the entry of `p` and to the dial attempts. */
  lemma HandleDials(c: Core, e: Event, p: PeerId)
    ensures var c' := Handle(c, e);
            var begins := (e.SendMessageReq? || e.OutgoingConnectionReq?) && e.peer.key !in c.peers;
            && c'.dials == c.dials + (if begins then [Dial(e.peer, true)] else [])
            && (Ends(e, p) ==> (p in c'.peers ==> c'.peers[p].Connected?))
            && (!Ends(e, p) && e.peer.key == p && begins ==> p in c'.peers && c'.peers[p].Connecting?)
            && (!Ends(e, p) && !(e.peer.key == p && begins) ==>
                  && (p in c'.peers <==> p in c.peers)
                  && (p in c.peers ==> (c'.peers[p].Connecting? <==> c.peers[p].Connecting?)))
  {
    hide Tell, Tries;
  }

  lemma DialsHandle(s: Sys, p: PeerId)
    requires Shape(s) && s.inbox != [] && TableMatches(s) && DialsMatch(s)
    ensures DialMatches(Next(s, HandleNext), p)
    ensures Started(Next(s, HandleNext).hist) == |Next(s, HandleNext).core.dials|
  {
    hide Handle, Current, SendsSince, WaitsSince;
    var s', e := Next(s, HandleNext), s.inbox[0];
    assert s'.hist[..|s'.hist| - 1] == s.hist;
    HandleDials(s.core, e, p);
    assert EntryMatches(s, e.peer.key) && DialMatches(s, e.peer.key) && DialMatches(s, p);
    assert e in s.inbox && EventOk(s.core, e);
    if DialFor(s.hist, p).Some? && !Ends(e, p) {
      OutstandingStep(s, HandleNext, DialFor(s.hist, p).value);
    }
    if StartsDial(s.hist, e) {
      assert Outstanding(s', |s.core.dials|);
    }
  }

  lemma DialsStep(s: Sys, a: Action)
    requires Shape(s) && Enabled(s, a) && TableMatches(s) && DialsMatch(s)
    ensures DialsMatch(Next(s, a))
  {
    forall p
      ensures DialMatches(Next(s, a), p)
    {
      if a.HandleNext? {
        DialsHandle(s, p);
      } else {
        assert DialMatches(s, p);
        if DialFor(s.hist, p).Some? {
          OutstandingStep(s, a, DialFor(s.hist, p).value);
        }
      }
    }
    if a.HandleNext? {
      DialsHandle(s, 0);
    }
  }

  /** After every run, whatever overlaps, each `Connecting` entry's own dial attempt still runs or
      its report is still to be handled. */
  lemma {:induction false} OwnDialOutstanding(acts: seq<Action>)
    requires Run(acts).Some?
    ensures DialsMatch(Run(acts).value)
  {
    if acts != [] {
      var front := acts[..|acts| - 1];
      OwnDialOutstanding(front);
      OrderAlways(front);
      WritersOutliveSenders(front);
      DialsStep(Run(front).value, acts[|acts| - 1]);
    }
  }

  /** The `j`-th event started dial attempt `d`. */
  ghost predicate DialledAt(hist: seq<Event>, d: nat, j: nat) {
    j < |hist| && StartsDial(hist[..j], hist[j]) && Started(hist[..j]) == d
  }

  ghost predicate DialPeersMatch(s: Sys) {
    && Started(s.hist) == |s.core.dials|
    && forall d, j: nat :: 0 <= d < |s.core.dials| && DialledAt(s.hist, d, j) ==> s.core.dials[d].peer == s.hist[j].peer
  }

  lemma {:induction false} DialledBefore(hist: seq<Event>, d: nat, j: nat)
    requires DialledAt(hist, d, j)
    ensures d < Started(hist)
  {
    hide StartsDial;
    var front := hist[..|hist| - 1];
    if j < |front| {
      assert front[..j] == hist[..j];
      DialledBefore(front, d, j);
    }
  }

  lemma DialPeersHandle(s: Sys)
    requires Shape(s) && s.inbox != [] && TableMatches(s) && DialsMatch(s) && DialPeersMatch(s)
    ensures DialPeersMatch(Next(s, HandleNext))
  {
    hide Handle, StartsDial, Outstanding;
    var s', e := Next(s, HandleNext), s.inbox[0];
    assert s'.hist[..|s.hist|] == s.hist;
    HandleDials(s.core, e, e.peer.key);
    DialsHandle(s, e.peer.key);
    forall d, j: nat | 0 <= d < |s'.core.dials| && DialledAt(s'.hist, d, j)
      ensures s'.core.dials[d].peer == s'.hist[j].peer
    {
      if j < |s.hist| {
        assert s'.hist[..j] == s.hist[..j];
        DialledBefore(s.hist, d, j);
      }
    }
  }

  /** After every run each dial attempt is to the peer, address included, that the event which started
      it names. */
  lemma {:induction false} DialsGoWhereAsked(acts: seq<Action>)
    requires Run(acts).Some?
    ensures DialPeersMatch(Run(acts).value)
  {
    hide Handle, StartsDial, DialsMatch, TableMatches, QueuesMatch, Shape;
    if acts != [] {
      var front := acts[..|acts| - 1];
      DialsGoWhereAsked(front);
      OwnDialOutstanding(front);
      OrderAlways(front);
      WritersOutliveSenders(front);
      if acts[|acts| - 1].HandleNext? {
        DialPeersHandle(Run(front).value);
      } else {
        DialPeersKept(Run(front).value, acts[|acts| - 1]);
      }
    }
  }

  lemma DialPeersKept(s: Sys, a: Action)
    requires Enabled(s, a) && !a.HandleNext?
    ensures Next(s, a).hist == s.hist && |Next(s, a).core.dials| == |s.core.dials|
    ensures forall d :: 0 <= d < |s.core.dials| ==> Next(s, a).core.dials[d].peer == s.core.dials[d].peer
  {
  }

  /** Every handled report of a dial attempt is about the attempt that the waiting requests
      started. */
  ghost predicate OwnReports(hist: seq<Event>) {
    forall m, d: nat :: 0 <= m < |hist| && TagOf(hist[m]) == OfDial(d) ==> DialFor(hist[..m], hist[m].peer.key) == Some(d)
  }

  lemma OwnReport(s: Sys, d: nat)
    requires Shape(s) && Exact(s) && DialsMatch(s) && s.inbox != [] && TagOf(s.inbox[0]) == OfDial(d)
    ensures DialFor(s.hist, s.inbox[0].peer.key) == Some(d)
  {
    var p := s.inbox[0].peer.key;
    assert s.inbox[0] in s.inbox && EventOk(s.core, s.inbox[0]) && Outstanding(s, d);
    assert ExactFor(s, p) && d in Attempts(s, p) && DialMatches(s, p);
    assert DialFor(s.hist, p).value in Attempts(s, p);
  }

  /** Without overlap a request is only ever told the outcome of its own dial attempt. */
  lemma {:induction false} OwnDialWithoutOverlap(acts: seq<Action>)
    requires Run(acts).Some? && AllApart(acts)
    ensures OwnReports(Run(acts).value.hist)
  {
    if acts != [] {
      var front := acts[..|acts| - 1];
      OwnDialWithoutOverlap(front);
      ExactWithoutOverlap(front);
      WritersOutliveSenders(front);
      OwnDialOutstanding(front);
      var s, s' := Run(front).value, Run(acts).value;
      if acts[|acts| - 1].HandleNext? {
        forall m, d: nat | 0 <= m < |s'.hist| && TagOf(s'.hist[m]) == OfDial(d)
          ensures DialFor(s'.hist[..m], s'.hist[m].peer.key) == Some(d)
        {
          if m < |s.hist| {
            assert s'.hist[..m] == s.hist[..m];
          } else {
            assert s'.hist[..m] == s.hist;
            OwnReport(s, d);
          }
        }
      }
    }
  }

  /** The `j`-th event started dial attempt `d` for `p`, and nothing has ended an entry of `p` since. */
  ghost predicate StartedAt(hist: seq<Event>, p: PeerId, d: nat, j: nat) {
    && j < |hist| && hist[j].peer.key == p
    && StartsDial(hist[..j], hist[j]) && Started(hist[..j]) == d
    && NoneEnds(hist, p, j, |hist|)
  }

  lemma StartedEarlier(hist: seq<Event>, p: PeerId, d: nat, j: nat)
    requires hist != [] && j < |hist| - 1
    ensures StartedAt(hist, p, d, j) <==> StartedAt(hist[..|hist| - 1], p, d, j) && !Ends(hist[|hist| - 1], p)
  {
    hide StartsDial, Started;
    var front := hist[..|hist| - 1];
    assert front[..j] == hist[..j] && front[j] == hist[j];
    assert forall m :: j <= m < |front| ==> front[m] == hist[m];
  }

  /** The attempt that the requests waiting for `p` started, told by where in the history it was
      started. */
  lemma {:induction false} DialForExactly(hist: seq<Event>, p: PeerId, d: nat)
    ensures DialFor(hist, p) == Some(d) <==> exists j: nat :: StartedAt(hist, p, d, j)
  {
    if hist != [] {
      hide StartedAt;
      var front, last := hist[..|hist| - 1], |hist| - 1;
      DialForExactly(front, p, d);
      forall j: nat | j < last
        ensures StartedAt(hist, p, d, j) <==> StartedAt(front, p, d, j) && !Ends(hist[last], p)
      {
        StartedEarlier(hist, p, d, j);
      }
      StartedLast(hist, p, d);
      forall j: nat
        ensures StartedAt(hist, p, d, j) ==> j <= last
        ensures StartedAt(front, p, d, j) ==> j < last
      {
        StartedInside(hist, p, d, j);
        StartedInside(front, p, d, j);
      }
    }
  }

  lemma StartedInside(hist: seq<Event>, p: PeerId, d: nat, j: nat)
    ensures StartedAt(hist, p, d, j) ==> j < |hist|
  {
  }

  lemma StartedLast(hist: seq<Event>, p: PeerId, d: nat)
    requires hist != []
    ensures var front, e := hist[..|hist| - 1], hist[|hist| - 1];
            StartedAt(hist, p, d, |hist| - 1) <==> e.peer.key == p && StartsDial(front, e) && Started(front) == d
  {
    hide Started, DialFor, Current;
  }

  /** At the `m`-th event request `r` is told the failure of an attempt that is not the one started
      for it. */
  ghost predicate MisblamedAt(hist: seq<Event>, m: nat, r: Request) {
    && m < |hist| && hist[m].ConnectionFailed? && FailsAt(hist, m, r, hist[m].reason)
    && DialFor(hist[..m], r.to.key) != Some(hist[m].dial)
  }

  /** The failure reported by the `m`-th event is that of the attempt that those who wait started: it
      was started for this very peer and nothing ended an entry of the peer since. */
  ghost predicate OwnFailureAt(hist: seq<Event>, m: nat)
    requires m < |hist| && hist[m].ConnectionFailed?
  {
    exists j: nat :: StartedAt(hist[..m], hist[m].peer.key, hist[m].dial, j)
  }

  /** Some request waits for a connection when the `m`-th event is handled. */
  ghost predicate SomebodyWaitsAt(hist: seq<Event>, m: nat)
    requires m < |hist|
  {
    Current(hist[..m], hist[m].peer.key).None? && AskedSince(hist[..m], hist[m].peer.key)
  }

  lemma MisblamedExactly(hist: seq<Event>, m: nat)
    requires OwnPeers(hist) && m < |hist| && hist[m].ConnectionFailed?
    ensures (exists r :: MisblamedAt(hist, m, r)) <==> SomebodyWaitsAt(hist, m) && !OwnFailureAt(hist, m)
  {
    hide AskedSince, StartedAt, DialFor, WaitsSince, SendsSince;
    var p, front := hist[m].peer.key, hist[..m];
    DialForExactly(front, p, hist[m].dial);
    HeldNonempty(front, p);
    assert OwnPeers(front);
    if SomebodyWaitsAt(hist, m) && !OwnFailureAt(hist, m) {
      var r := Held(front, p)[0];
      assert r in Held(front, p);
      HeldForOwnPeer(front, p, r);
      assert MisblamedAt(hist, m, r);
    }
  }

  /** In a run nobody is told the failure of an attempt that is not its own exactly when every failure
      that is handled while requests wait is of an attempt started for that peer, with nothing that
      ended an entry of the peer between its start and its report. */
  lemma OwnFailuresExactlyWhen(acts: seq<Action>)
    requires Run(acts).Some?
    ensures var hist := Run(acts).value.hist;
            (forall m: nat, r :: !MisblamedAt(hist, m, r)) <==>
            (forall m: nat :: m < |hist| && hist[m].ConnectionFailed? && SomebodyWaitsAt(hist, m) ==> OwnFailureAt(hist, m))
  {
    hide SomebodyWaitsAt, OwnFailureAt;
    OwnPeersAlways(acts);
    var hist := Run(acts).value.hist;
    forall m: nat | m < |hist| && hist[m].ConnectionFailed?
      ensures (exists r :: MisblamedAt(hist, m, r)) <==> SomebodyWaitsAt(hist, m) && !OwnFailureAt(hist, m)
    {
      MisblamedExactly(hist, m);
    }
  }

  /** What the two halves of the run below meet in: a dial attempt that nothing waits for. */
  ghost predicate StrayDial(s: Sys, peer: Peer) {
    && s.inbox == [] && |s.asked| == 1 && s.core.notices == []
    && s.core.peers == map[] && s.core.dials == [Dial(peer, true)]
  }

  lemma LeavesAStrayDial(peer: Peer, message: Message) returns (acts: seq<Action>, s: Sys)
    ensures Run(acts) == Some(s) && StrayDial(s, peer)
  {
    acts, s := RunOn([], INIT, AskSend(peer, message, true));
    acts, s := RunOn(acts, s, HandleNext);
    assert s.inbox == [] && s.core.dials == [Dial(peer, true)] && s.core.conns == [];
    acts, s := RunOn(acts, s, Accept(peer, []));
    acts, s := RunOn(acts, s, HandleNext);
    assert s.inbox == [] && s.core.peers == map[peer.key := Connected(0)] && s.core.conns[0].peer == peer;
    acts, s := RunOn(acts, s, ReadEnds(0));
    assert s.inbox == [Disconnected(peer, 0)];
    acts, s := RunOn(acts, s, HandleNext);
  }

  /** The next send starts an attempt of its own. */
  lemma SecondDial(acts0: seq<Action>, s0: Sys, peer: Peer, message: Message) returns (acts: seq<Action>, s: Sys)
    requires Run(acts0) == Some(s0) && StrayDial(s0, peer)
    ensures Run(acts) == Some(s) && s.inbox == []
    ensures s.asked == s0.asked + [Send(1, true, peer, message)]
    ensures s.core.dials == [Dial(peer, true), Dial(peer, true)]
    ensures WaitingOf(s.core.peers, peer.key) == [] && PendingOf(s.core.peers, peer.key) == [Send(1, true, peer, message)]
    ensures DialFor(s.hist, peer.key) == Some(1) && Send(1, true, peer, message) in Held(s.hist, peer.key)
  {
    hide Held, SendsSince, WaitsSince;
    acts, s := RunOn(acts0, s0, AskSend(peer, message, true));
    assert s.core == s0.core && s.inbox == [SendMessageReq(peer, Send(1, true, peer, message))];
    OwnDialOutstanding(acts);
    OrderAlways(acts);
    assert DialMatches(s, peer.key) && EntryMatches(s, peer.key);
    assert StartsDial(s.hist, s.inbox[0]);
    var hist := s.hist;
    acts, s := RunOn(acts, s, HandleNext);
    assert s.hist[..|s.hist| - 1] == hist;
    OrderAlways(acts);
    EntryHeld(s, peer.key);
  }

  /** The first attempt fails, and the one send that waits is told. */
  lemma FirstDialFails(acts0: seq<Action>, s0: Sys, peer: Peer, r: Request, reason: Reason) returns (acts: seq<Action>, s: Sys)
    requires Run(acts0) == Some(s0) && s0.inbox == [] && s0.core.dials == [Dial(peer, true), Dial(peer, true)]
    requires PendingOf(s0.core.peers, peer.key) == [r] && r.notify
    ensures Run(acts) == Some(s) && s.asked == s0.asked
    ensures s.hist == s0.hist + [ConnectionFailed(peer, 0, reason)]
    ensures s.core.dials == [Dial(peer, false), Dial(peer, true)] && Notice(r.id, Err(reason)) in s.core.notices
  {
    acts, s := RunOn(acts0, s0, DialFails(0, reason));
    assert s.inbox == [ConnectionFailed(peer, 0, reason)] && s.core.peers == s0.core.peers;
    acts, s := RunOn(acts, s, HandleNext);
    TellExact([r], Err(reason));
  }

  /** With overlap a send can be told an error while its own dial attempt still runs: an accepted
      connection takes the place of the first attempt and ends, the next send starts a second
      attempt, and the failure of the first is reported to it. */
  lemma OverlapBlamesAnotherDial(peer: Peer, message: Message, reason: Reason) returns (acts: seq<Action>, s: Sys)
    ensures Run(acts) == Some(s)
    ensures |s.asked| == 2 && s.asked[1] == Send(1, true, peer, message) && Notice(1, Err(reason)) in s.core.notices
    ensures |s.core.dials| == 2 && s.core.dials[1] == Dial(peer, true)
    ensures exists m: nat :: MisblamedAt(s.hist, m, s.asked[1])
  {
    hide DialFor, Held, Run;
    var s0;
    acts, s0 := LeavesAStrayDial(peer, message);
    acts, s0 := SecondDial(acts, s0, peer, message);
    acts, s := FirstDialFails(acts, s0, peer, Send(1, true, peer, message), reason);
    assert s.hist[..|s0.hist|] == s0.hist && s.hist[|s0.hist|] == ConnectionFailed(peer, 0, reason);
    assert MisblamedAt(s.hist, |s0.hist|, s.asked[1]);
  }
}
