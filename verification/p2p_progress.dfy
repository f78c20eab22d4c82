/** Nobody waits for nothing, every run of internal steps ends, and what the end looks like. */
module PeerProgress {
  import opened Options
  import opened PeerHandler
  import opened PeerSystem
  import opened PeerConservation
  import PeerOrder

  // ---------------------------------------------------------------------------------------
  // No orphaned waiters
  // ---------------------------------------------------------------------------------------

  ghost predicate ReportQueued(inbox: seq<Event>, d: nat) {
    exists e :: e in inbox && TagOf(e) == OfDial(d)
  }

  /** Dial attempt `d` still runs, or what it reported has not been handled. */
  ghost predicate Outstanding(s: Sys, d: nat) {
    && d < |s.core.dials|
    && (s.core.dials[d].running || ReportQueued(s.inbox, d))
  }

  ghost predicate Attended(s: Sys, p: PeerId) {
    exists d: nat :: Outstanding(s, d) && s.core.dials[d].peer.key == p
  }

  ghost predicate NoOrphans(s: Sys) {
    forall p :: p in s.core.peers && s.core.peers[p].Connecting? ==> Attended(s, p)
  }

  lemma OutstandingStep(s: Sys, a: Action, d: nat)
    requires Enabled(s, a) && Outstanding(s, d)
    requires a.HandleNext? ==> TagOf(s.inbox[0]) != OfDial(d)
    ensures Outstanding(Next(s, a), d) && Next(s, a).core.dials[d].peer == s.core.dials[d].peer
  {
    var s' := Next(s, a);
    if a.HandleNext? {
      if !s.core.dials[d].running {
        var e :| e in s.inbox && TagOf(e) == OfDial(d);
        assert e in s'.inbox;
      }
    } else {
      if e :| e in s.inbox && TagOf(e) == OfDial(d) {
        assert e in s'.inbox;
      }
      if (a.DialSucceeds? || a.DialFails?) && a.dial == d {
        assert s'.inbox[|s.inbox|] in s'.inbox && TagOf(s'.inbox[|s.inbox|]) == OfDial(d);
      }
    }
  }

  /** An entry that is `Connecting` after a step either was so before, with a dial attempt whose
      report the step did not handle, or was created by the step with a fresh attempt. */
  lemma AttendedStep(s: Sys, a: Action, p: PeerId)
    requires Shape(s) && Enabled(s, a) && NoOrphans(s)
    requires p in Next(s, a).core.peers && Next(s, a).core.peers[p].Connecting?
    ensures Attended(Next(s, a), p)
  {
    var s' := Next(s, a);
    if p in s.core.peers {
      var d: nat :| Outstanding(s, d) && s.core.dials[d].peer.key == p;
      if a.HandleNext? {
        assert s.inbox[0] in s.inbox && EventOk(s.core, s.inbox[0]);
        assert TagOf(s.inbox[0]) != OfDial(d);
      }
      OutstandingStep(s, a, d);
    } else {
      assert Outstanding(s', |s.core.dials|);
    }
  }

  /** In every reachable state, whatever overlaps, each `Connecting` entry has a dial attempt for
      its peer that still runs or whose report is still to be handled. */
  lemma {:induction false} NoOrphanedWaiters(acts: seq<Action>)
    requires Run(acts).Some?
    ensures NoOrphans(Run(acts).value)
  {
    if acts != [] {
      var front, a := acts[..|acts| - 1], acts[|acts| - 1];
      NoOrphanedWaiters(front);
      WritersOutliveSenders(front);
      var s := Run(front).value;
      forall p | p in Next(s, a).core.peers && Next(s, a).core.peers[p].Connecting?
        ensures Attended(Next(s, a), p)
      {
        AttendedStep(s, a, p);
      }
    }
  }

  // ---------------------------------------------------------------------------------------
  // Termination
  // ---------------------------------------------------------------------------------------

  function CountEvents(inbox: seq<Event>, rank: nat): nat {
    if inbox == [] then 0
    else CountEvents(inbox[..|inbox| - 1], rank) + (if RankOf(inbox[|inbox| - 1]) == rank then 1 else 0)
  }

  /** 0 for requests, 1 for the ends of dial attempts and accepted connections, 2 for the rest. */
  function RankOf(e: Event): nat {
    match e
    case OutgoingConnectionReq(_, _) => 0
    case SendMessageReq(_, _) => 0
    case ConnectionEstablished(_, _, _) => 1
    case ConnectionFailed(_, _, _) => 1
    case _ => 2
  }

  function RunningDials(dials: seq<Dial>): nat {
    if dials == [] then 0
    else RunningDials(dials[..|dials| - 1]) + (if dials[|dials| - 1].running then 1 else 0)
  }

  function ToRead(c: Conn): nat {
    |c.unread| + (if c.reading then 1 else 0)
  }

  function ToWrite(c: Conn): nat {
    |c.queue| + (if c.writing then 1 else 0)
  }

  function Sum(conns: seq<Conn>, f: Conn -> nat): nat {
    if conns == [] then 0 else Sum(conns[..|conns| - 1], f) + f(conns[|conns| - 1])
  }

  lemma {:induction false} SumUpdate(conns: seq<Conn>, f: Conn -> nat, k: nat, c: Conn)
    requires k < |conns|
    ensures Sum(conns[k := c], f) == Sum(conns, f) - f(conns[k]) + f(c)
  {
    var front := conns[..|conns| - 1];
    if k < |front| {
      SumUpdate(front, f, k, c);
      assert conns[k := c][..|front|] == front[k := c];
    } else {
      assert conns[k := c][..|front|] == front;
    }
  }

  lemma {:induction false} DialsUpdate(dials: seq<Dial>, d: nat)
    requires d < |dials| && dials[d].running
    ensures RunningDials(dials[d := dials[d].(running := false)]) == RunningDials(dials) - 1
  {
    var front := dials[..|dials| - 1];
    var after := dials[d := dials[d].(running := false)];
    if d < |front| {
      DialsUpdate(front, d);
      assert after[..|front|] == front[d := front[d].(running := false)];
    } else {
      assert after[..|front|] == front;
    }
  }

  lemma {:induction false} CountFront(e: Event, rest: seq<Event>, rank: nat)
    ensures CountEvents([e] + rest, rank) == CountEvents(rest, rank) + (if RankOf(e) == rank then 1 else 0)
  {
    if rest == [] {
      assert [e] + rest == [e] && [e][..0] == [];
    } else {
      CountFront(e, rest[..|rest| - 1], rank);
      assert ([e] + rest)[..|rest|] == [e] + rest[..|rest| - 1];
    }
  }

  lemma CountBack(inbox: seq<Event>, e: Event, rank: nat)
    ensures CountEvents(inbox + [e], rank) == CountEvents(inbox, rank) + (if RankOf(e) == rank then 1 else 0)
  {
    assert (inbox + [e])[..|inbox|] == inbox;
  }

  /** What is left to do: unhandled requests, dial attempts, connection events, messages to read
      and readers, queued incoming and disconnect events, messages to write and writers. */
  datatype Work = Work(requests: nat, dials: nat, opens: nat, toRead: nat, events: nat, writes: nat)

  function WorkLeft(s: Sys): Work {
    Work(CountEvents(s.inbox, 0), RunningDials(s.core.dials), CountEvents(s.inbox, 1),
         Sum(s.core.conns, ToRead), CountEvents(s.inbox, 2), Sum(s.core.conns, ToWrite))
  }

  /** Lexicographic order. */
  predicate Less(v: Work, w: Work) {
    || v.requests < w.requests
    || (v.requests == w.requests &&
        (v.dials < w.dials || (v.dials == w.dials &&
         (v.opens < w.opens || (v.opens == w.opens &&
          (v.toRead < w.toRead || (v.toRead == w.toRead &&
           (v.events < w.events || (v.events == w.events && v.writes < w.writes)))))))))
  }

  lemma HandleWorks(s: Sys)
    requires s.inbox != []
    ensures Less(WorkLeft(Next(s, HandleNext)), WorkLeft(s))
  {
    var e, rest := s.inbox[0], s.inbox[1..];
    assert s.inbox == [e] + rest;
    CountFront(e, rest, 0);
    CountFront(e, rest, 1);
    CountFront(e, rest, 2);
  }

  lemma InternalStepWorks(s: Sys, a: Action)
    requires Enabled(s, a) && !External(a)
    ensures Less(WorkLeft(Next(s, a)), WorkLeft(s))
  {
    var s' := Next(s, a);
    if s'.inbox != s.inbox && !a.HandleNext? {
      var e := s'.inbox[|s.inbox|];
      CountBack(s.inbox, e, 0);
      CountBack(s.inbox, e, 1);
      CountBack(s.inbox, e, 2);
    }
    match a {
      case HandleNext => HandleWorks(s);
      case DialSucceeds(d, _) => DialsUpdate(s.core.dials, d);
      case DialFails(d, _) => DialsUpdate(s.core.dials, d);
      case ReadNext(k) => SumUpdate(s.core.conns, ToRead, k, s'.core.conns[k]);
      case ReadEnds(k) => SumUpdate(s.core.conns, ToRead, k, s'.core.conns[k]);
      case WriteNext(k, _) => WriterWorks(s, k, s');
      case WriterEnds(k) => WriterWorks(s, k, s');
    }
  }

  lemma WriterWorks(s: Sys, k: nat, s': Sys)
    requires k < |s.core.conns| && s'.core.dials == s.core.dials && s'.inbox == s.inbox
    requires |s'.core.conns| == |s.core.conns| && s'.core.conns == s.core.conns[k := s'.core.conns[k]]
    requires ToRead(s'.core.conns[k]) == ToRead(s.core.conns[k]) && ToWrite(s'.core.conns[k]) < ToWrite(s.core.conns[k])
    ensures Less(WorkLeft(s'), WorkLeft(s))
  {
    SumUpdate(s.core.conns, ToRead, k, s'.core.conns[k]);
    SumUpdate(s.core.conns, ToWrite, k, s'.core.conns[k]);
  }

  ghost predicate InternalStep(s: Sys, s': Sys) {
    exists a :: Enabled(s, a) && !External(a) && s' == Next(s, a)
  }

  lemma {:induction false} Descends(run: nat -> Sys, n: nat, work: Work) returns (m: nat)
    requires work == WorkLeft(run(n))
    ensures !InternalStep(run(m), run(m + 1))
    decreases work.requests, work.dials, work.opens, work.toRead, work.events, work.writes
  {
    hide WorkLeft, Enabled, Next, External;
    if InternalStep(run(n), run(n + 1)) {
      var a :| Enabled(run(n), a) && !External(a) && run(n + 1) == Next(run(n), a);
      InternalStepWorks(run(n), a);
      m := Descends(run, n + 1, WorkLeft(run(n + 1)));
    } else {
      m := n;
    }
  }

  /** Without new external input nothing goes on for ever, from any state whatever. */
  lemma Terminates(run: nat -> Sys)
    ensures exists m: nat :: !InternalStep(run(m), run(m + 1))
  {
    var m := Descends(run, 0, WorkLeft(run(0)));
  }

  // ---------------------------------------------------------------------------------------
  // Quiescence
  // ---------------------------------------------------------------------------------------

  ghost predicate Quiescent(s: Sys) {
    forall a :: Enabled(s, a) ==> External(a)
  }

  lemma QuiescentMeans(s: Sys)
    requires Quiescent(s) && Shape(s)
    ensures s.inbox == []
    ensures forall d :: 0 <= d < |s.core.dials| ==> !s.core.dials[d].running
    ensures forall k :: 0 <= k < |s.core.conns| ==>
              !s.core.conns[k].reading && s.core.conns[k].queue == [] && s.core.conns[k].unread == []
  {
    assert !Enabled(s, HandleNext);
    forall d | 0 <= d < |s.core.dials|
      ensures !s.core.dials[d].running
    {
      assert !Enabled(s, DialFails(d, 0));
    }
    forall k | 0 <= k < |s.core.conns|
      ensures !s.core.conns[k].reading && s.core.conns[k].queue == [] && s.core.conns[k].unread == []
    {
      assert !Enabled(s, ReadNext(k)) && !Enabled(s, ReadEnds(k)) && !Enabled(s, WriteNext(k, Ok));
    }
  }

  /** When nothing but the environment can move: no peer is being dialled, every queue is empty,
      and every request has ended, or was dropped by a disconnect that met a `Connecting` entry,
      or was a connect request with nothing to wait for. A send has ended exactly when no
      disconnect dropped it. */
  lemma AtRest(acts: seq<Action>)
    requires Run(acts).Some? && Quiescent(Run(acts).value)
    ensures var s := Run(acts).value;
            && s.inbox == []
            && (forall p :: p in s.core.peers ==> s.core.peers[p].Connected?)
            && (forall k :: 0 <= k < |s.core.conns| ==> s.core.conns[k].queue == [])
            && (forall i :: 0 <= i < |s.asked| ==>
                  || (exists o :: Ended(s.core, s.asked[i], o))
                  || s.asked[i] in s.core.lost
                  || s.asked[i] in s.core.ignored)
            && (forall i :: 0 <= i < |s.asked| && s.asked[i].Send? ==>
                  ((exists o :: Ended(s.core, s.asked[i], o)) <==> s.asked[i] !in s.core.lost))
  {
    var s := Run(acts).value;
    NoOrphanedWaiters(acts);
    var place := LinkedAlways(acts);
    QuiescentMeans(s);
    forall p | p in s.core.peers
      ensures s.core.peers[p].Connected?
    {
      assert !Attended(s, p);
    }
    forall i | 0 <= i < |s.asked|
      ensures (exists o :: Ended(s.core, s.asked[i], o)) || s.asked[i] in s.core.lost || s.asked[i] in s.core.ignored
    {
      Conservation(acts, i);
      var x :| s.asked[i] in ListAt(s, x);
      match x {
        case TriedOn(k) => EndedByTry(s.core.conns[k].tried, s.asked[i], s.core, k);
        case Failed =>
          var j :| 0 <= j < |s.core.failed| && Requests(s.core.failed)[j] == s.asked[i];
          assert s.core.failed[j] == Try(s.asked[i], s.core.failed[j].outcome);
          assert Ended(s.core, s.asked[i], s.core.failed[j].outcome);
        case Greeted => assert Ended(s.core, s.asked[i], Ok);
        case _ =>
      }
    }
    assert AllConnects(s.core.ignored);
    forall i | 0 <= i < |s.asked| && s.asked[i] in s.core.lost
      ensures !exists o :: Ended(s.core, s.asked[i], o)
    {
      LostNeverEnds(s, place, s.asked[i]);
    }
  }

  lemma LostNeverEnds(s: Sys, place: seq<Place>, req: Request)
    requires Linked(s.asked, place, View(s)) && req in s.core.lost
    ensures !exists o :: Ended(s.core, req, o)
  {
    assert Holds(s.asked, place, View(s)(Lost), Lost);
    if o :| Ended(s.core, req, o) {
      EndedIsPlaced(s, place, req, o);
    }
  }

  lemma EndedByTry(tried: seq<Try>, req: Request, c: Core, k: nat)
    requires k < |c.conns| && c.conns[k].tried == tried && req in Requests(tried)
    ensures exists o :: Ended(c, req, o)
  {
    var j :| 0 <= j < |tried| && Requests(tried)[j] == req;
    assert tried[j] == Try(req, tried[j].outcome);
    assert Ended(c, req, tried[j].outcome);
  }

  /** A connection's queue is tried to its last message, even when its entry in the table has been
      removed or replaced long ago and whatever the sink answered before. */
  lemma EveryQueueIsTried(acts: seq<Action>, k: nat)
    requires Run(acts).Some? && k < |Run(acts).value.core.conns|
    ensures var s := Run(acts).value;
            s.core.conns[k].queue != [] ==> forall o :: Enabled(s, WriteNext(k, o))
    ensures var s := Run(acts).value;
            Quiescent(s) ==> Requests(s.core.conns[k].tried) == PeerOrder.Fed(s.hist, k)
  {
    WritersOutliveSenders(acts);
    PeerOrder.FirstInFirstOut(acts, k);
    var s := Run(acts).value;
    if Quiescent(s) {
      QuiescentMeans(s);
    }
  }
}
