/** No request is ever duplicated or forgotten, and no notifier fires twice. */
module PeerConservation {
  import opened Options
  import opened Sequences
  import opened PeerHandler
  import opened PeerSystem

  /** Where a request can be. The last five are final. */
  datatype Place =
    | Unhandled
    | WaitingAt(p: PeerId)
    | PendingAt(p: PeerId)
    | QueuedOn(conn: nat)
    | TriedOn(conn: nat)
    | Greeted
    | Failed
    | Lost
    | Ignored

  function RequestsIn(inbox: seq<Event>): seq<Request> {
    if inbox == [] then []
    else RequestsIn(inbox[..|inbox| - 1]) + RequestOf(inbox[|inbox| - 1])
  }

  function RequestOf(e: Event): seq<Request> {
    match e
    case SendMessageReq(_, req) => [req]
    case OutgoingConnectionReq(_, req) => [req]
    case _ => []
  }

  /** The part of the state that the place names. */
  function ListAt(s: Sys, x: Place): seq<Request> {
    match x
    case Unhandled => RequestsIn(s.inbox)
    case WaitingAt(p) => WaitingOf(s.core.peers, p)
    case PendingAt(p) => PendingOf(s.core.peers, p)
    case QueuedOn(k) => if k < |s.core.conns| then s.core.conns[k].queue else []
    case TriedOn(k) => if k < |s.core.conns| then Requests(s.core.conns[k].tried) else []
    case Greeted => s.core.greeted
    case Failed => Requests(s.core.failed)
    case Lost => s.core.lost
    case Ignored => s.core.ignored
  }

  /** `list` holds exactly the requests that `place` puts at `x`, each once. */
  ghost predicate Holds(asked: seq<Request>, place: seq<Place>, list: seq<Request>, x: Place)
    requires |asked| == |place|
  {
    && (forall r :: r in list ==> r.id < |asked| && asked[r.id] == r && place[r.id] == x)
    && (forall i :: 0 <= i < |asked| && place[i] == x ==> asked[i] in list)
    && NoDup(list)
  }

  ghost predicate Numbered(asked: seq<Request>) {
    forall i :: 0 <= i < |asked| ==> asked[i].id == i
  }

  ghost predicate Linked(asked: seq<Request>, place: seq<Place>, at: Place -> seq<Request>) {
    && |asked| == |place|
    && Numbered(asked)
    && forall x :: Holds(asked, place, at(x), x)
  }

  ghost function View(s: Sys): Place -> seq<Request> {
    x => ListAt(s, x)
  }

  /** Put the requests of `moved` at `y`. */
  ghost function Relocate(asked: seq<Request>, place: seq<Place>, moved: seq<Request>, y: Place): seq<Place>
    requires |asked| == |place|
  {
    seq(|place|, i requires 0 <= i < |place| => if asked[i] in moved then y else place[i])
  }

  /** Moving the front part of one list to the end of another keeps every list exact. */
  lemma Move(asked: seq<Request>, place: seq<Place>, at: Place -> seq<Request>, at': Place -> seq<Request>,
             moved: seq<Request>, x: Place, y: Place)
    requires Linked(asked, place, at)
    requires x != y
    requires at(x) == moved + at'(x) && at'(y) == at(y) + moved
    requires forall z :: z != x && z != y ==> at'(z) == at(z)
    ensures Linked(asked, Relocate(asked, place, moved, y), at')
  {
    var place' := Relocate(asked, place, moved, y);
    assert Holds(asked, place, at(x), x) && Holds(asked, place, at(y), y);
    assert forall r :: r in moved ==> r in at(x);
    assert forall r :: r in at'(x) ==> r in at(x);
    forall z
      ensures Holds(asked, place', at'(z), z)
    {
      assert Holds(asked, place, at(z), z);
      if z == x {
        MoveSource(asked, place, at(x), at'(x), moved, x, y);
      } else if z == y {
        MoveTarget(asked, place, at(x), at(y), moved, x, y);
      } else {
        assert forall i :: 0 <= i < |asked| && asked[i] in moved ==> place[i] == x;
      }
    }
  }

  lemma MoveSource(asked: seq<Request>, place: seq<Place>, list: seq<Request>, rest: seq<Request>,
                   moved: seq<Request>, x: Place, y: Place)
    requires |asked| == |place| && Numbered(asked) && x != y
    requires Holds(asked, place, list, x) && list == moved + rest
    ensures Holds(asked, Relocate(asked, place, moved, y), rest, x)
  {
    forall i, j | 0 <= i < |moved| && 0 <= j < |rest|
      ensures moved[i] != rest[j]
    {
      assert list[i] == moved[i] && list[|moved| + j] == rest[j];
    }
    forall i, j | 0 <= i < j < |rest|
      ensures rest[i] != rest[j]
    {
      assert list[|moved| + i] == rest[i] && list[|moved| + j] == rest[j];
    }
    forall r | r in rest
      ensures r !in moved && r in list
    {
    }
    forall i | 0 <= i < |asked| && place[i] == x && asked[i] !in moved
      ensures asked[i] in rest
    {
      assert asked[i] in list;
    }
  }

  lemma MoveTarget(asked: seq<Request>, place: seq<Place>, list: seq<Request>, target: seq<Request>,
                   moved: seq<Request>, x: Place, y: Place)
    requires |asked| == |place| && Numbered(asked) && x != y
    requires Holds(asked, place, list, x) && Holds(asked, place, target, y)
    requires moved <= list
    ensures Holds(asked, Relocate(asked, place, moved, y), target + moved, y)
  {
    forall r | r in moved
      ensures r in list && r !in target
    {
    }
    assert NoDup(moved) by {
      assert forall i :: 0 <= i < |moved| ==> moved[i] == list[i];
    }
    var all := target + moved;
    forall i, j | 0 <= i < j < |all|
      ensures all[i] != all[j]
    {
      if i < |target| <= j {
        assert all[i] in target && all[j] in moved;
      }
    }
  }

  // ---------------------------------------------------------------------------------------
  // Steps move requests between places
  // ---------------------------------------------------------------------------------------

  lemma RequestsInBack(inbox: seq<Event>, e: Event)
    ensures RequestsIn(inbox + [e]) == RequestsIn(inbox) + RequestOf(e)
  {
    hide RequestOf;
    assert (inbox + [e])[..|inbox|] == inbox;
  }

  lemma {:induction false} RequestsInFront(e: Event, rest: seq<Event>)
    ensures RequestsIn([e] + rest) == RequestOf(e) + RequestsIn(rest)
    decreases |rest|
  {
    if rest == [] {
      assert [e] + rest == [] + [e];
      RequestsInBack([], e);
    } else {
      hide RequestsIn, RequestOf;
      var front, last := FrontAndLast(rest);
      RequestsInFront(e, front);
      Associative([e], front, [last]);
      RequestsInBack([e] + front, last);
      RequestsInBack(front, last);
      Associative(RequestOf(e), RequestsIn(front), RequestOf(last));
    }
  }

  /** A new request enters unhandled. */
  lemma Arrive(asked: seq<Request>, place: seq<Place>, at: Place -> seq<Request>, at': Place -> seq<Request>, req: Request)
    requires Linked(asked, place, at) && req.id == |asked|
    requires at'(Unhandled) == at(Unhandled) + [req]
    requires forall z :: z != Unhandled ==> at'(z) == at(z)
    ensures Linked(asked + [req], place + [Unhandled], at')
  {
    forall z
      ensures Holds(asked + [req], place + [Unhandled], at'(z), z)
    {
      assert Holds(asked, place, at(z), z);
    }
  }

  lemma StepLinked(s: Sys, a: Action, place: seq<Place>) returns (place': seq<Place>)
    requires Shape(s) && Enabled(s, a) && Linked(s.asked, place, View(s))
    ensures Linked(Next(s, a).asked, place', View(Next(s, a)))
  {
    match a {
      case HandleNext => place' := HandleLinked(s, place);
      case WriteNext(k, outcome) => place' := WriteLinked(s, k, outcome, place);
      case AskSend(_, _, _) => place' := AskLinked(s, a, place);
      case AskConnect(_, _) => place' := AskLinked(s, a, place);
      case _ =>
        place' := place;
        QuietLinked(s, a, place);
    }
  }

  lemma QuietList(s: Sys, a: Action, x: Place)
    requires Enabled(s, a)
    requires !a.HandleNext? && !a.WriteNext? && !a.AskSend? && !a.AskConnect?
    ensures ListAt(Next(s, a), x) == ListAt(s, x)
  {
    hide WaitingOf, PendingOf, Requests, RequestsIn;
    var s' := Next(s, a);
    if x.Unhandled? && s'.inbox != s.inbox {
      RequestsInBack(s.inbox, s'.inbox[|s.inbox|]);
    }
    if x.QueuedOn? || x.TriedOn? {
      assert |s'.core.conns| == |s.core.conns|;
      assert x.conn < |s.core.conns| ==>
          s'.core.conns[x.conn].queue == s.core.conns[x.conn].queue && s'.core.conns[x.conn].tried == s.core.conns[x.conn].tried;
    }
  }

  lemma QuietLinked(s: Sys, a: Action, place: seq<Place>)
    requires Enabled(s, a) && Linked(s.asked, place, View(s))
    requires !a.HandleNext? && !a.WriteNext? && !a.AskSend? && !a.AskConnect?
    ensures Linked(Next(s, a).asked, place, View(Next(s, a)))
  {
    forall x
      ensures Holds(s.asked, place, View(Next(s, a))(x), x)
    {
      assert Holds(s.asked, place, View(s)(x), x);
      QuietList(s, a, x);
    }
  }

  lemma AskLinked(s: Sys, a: Action, place: seq<Place>) returns (place': seq<Place>)
    requires Linked(s.asked, place, View(s)) && (a.AskSend? || a.AskConnect?)
    ensures Linked(Next(s, a).asked, place', View(Next(s, a)))
  {
    var s' := Next(s, a);
    place' := place + [Unhandled];
    RequestsInBack(s.inbox, s'.inbox[|s.inbox|]);
    Arrive(s.asked, place, View(s), View(s'), s'.asked[|s.asked|]);
  }

  lemma WriteLinked(s: Sys, k: nat, outcome: Outcome, place: seq<Place>) returns (place': seq<Place>)
    requires Enabled(s, WriteNext(k, outcome)) && Linked(s.asked, place, View(s))
    ensures Linked(s.asked, place', View(Next(s, WriteNext(k, outcome))))
  {
    hide Linked, ListAt, WriteOne;
    var s' := Next(s, WriteNext(k, outcome));
    var req := s.core.conns[k].queue[0];
    forall x
      ensures if x == QueuedOn(k) then View(s)(x) == [req] + View(s')(x)
              else View(s')(x) == View(s)(x) + (if x == TriedOn(k) then [req] else [])
    {
      WrittenLists(s, k, outcome, x);
    }
    LinkedLength(s.asked, place, View(s));
    Move(s.asked, place, View(s), View(s'), [req], QueuedOn(k), TriedOn(k));
    place' := Relocate(s.asked, place, [req], TriedOn(k));
  }

  lemma WrittenLists(s: Sys, k: nat, outcome: Outcome, x: Place)
    requires Enabled(s, WriteNext(k, outcome))
    ensures var list, list' := ListAt(s, x), ListAt(Next(s, WriteNext(k, outcome)), x);
            var req := s.core.conns[k].queue[0];
            if x == QueuedOn(k) then list == [req] + list'
            else list' == list + (if x == TriedOn(k) then [req] else [])
  {
    hide WaitingOf, PendingOf, RequestsIn;
    var s' := Next(s, WriteNext(k, outcome));
    var req := s.core.conns[k].queue[0];
    assert Requests(s'.core.conns[k].tried) == Requests(s.core.conns[k].tried) + [req];
  }

  lemma HandleLinked(s: Sys, place: seq<Place>) returns (place': seq<Place>)
    requires Shape(s) && s.inbox != [] && Linked(s.asked, place, View(s))
    ensures Linked(s.asked, place', View(Next(s, HandleNext)))
  {
    var e := s.inbox[0];
    assert s.inbox == [e] + s.inbox[1..];
    RequestsInFront(e, s.inbox[1..]);
    assert e in s.inbox && EventOk(s.core, e);
    match e {
      case OutgoingConnectionReq(_, _) => place' := ConnectReqLinked(s, place);
      case SendMessageReq(_, _) => place' := SendReqLinked(s, place);
      case NewIncomingMessage(_, _, _) =>
        place' := place;
        IncomingLinked(s, place);
      case Disconnected(_, _) => place' := DisconnectedLinked(s, place);
      case ConnectionEstablished(_, _, _) => place' := EstablishedLinked(s, place);
      case ConnectionFailed(_, _, _) => place' := FailedLinked(s, place);
    }
  }

  lemma ConnectReqLinked(s: Sys, place: seq<Place>) returns (place': seq<Place>)
    requires s.inbox != [] && s.inbox[0].OutgoingConnectionReq? && Linked(s.asked, place, View(s))
    requires RequestsIn(s.inbox) == [s.inbox[0].req] + RequestsIn(s.inbox[1..])
    ensures Linked(s.asked, place', View(Next(s, HandleNext)))
  {
    var s' := Next(s, HandleNext);
    var p, req := s.inbox[0].peer.key, s.inbox[0].req;
    var y := if req.notify && (p in s.core.peers ==> s.core.peers[p].Connecting?) then WaitingAt(p) else Ignored;
    assert ListAt(s', y) == ListAt(s, y) + [req];
    assert forall z :: z != Unhandled && z != y ==> ListAt(s', z) == ListAt(s, z);
    Move(s.asked, place, View(s), View(s'), [req], Unhandled, y);
    place' := Relocate(s.asked, place, [req], y);
  }

  lemma SendReqLinked(s: Sys, place: seq<Place>) returns (place': seq<Place>)
    requires Shape(s) && s.inbox != [] && s.inbox[0].SendMessageReq? && Linked(s.asked, place, View(s))
    requires RequestsIn(s.inbox) == [s.inbox[0].req] + RequestsIn(s.inbox[1..])
    ensures Linked(s.asked, place', View(Next(s, HandleNext)))
  {
    var s' := Next(s, HandleNext);
    var p, req := s.inbox[0].peer.key, s.inbox[0].req;
    var y := if p in s.core.peers && s.core.peers[p].Connected? then QueuedOn(s.core.peers[p].conn) else PendingAt(p);
    assert ListAt(s', y) == ListAt(s, y) + [req];
    assert forall z :: z != Unhandled && z != y ==> ListAt(s', z) == ListAt(s, z);
    Move(s.asked, place, View(s), View(s'), [req], Unhandled, y);
    place' := Relocate(s.asked, place, [req], y);
  }

  lemma IncomingLinked(s: Sys, place: seq<Place>)
    requires s.inbox != [] && s.inbox[0].NewIncomingMessage? && Linked(s.asked, place, View(s))
    requires RequestsIn(s.inbox) == RequestsIn(s.inbox[1..])
    ensures Linked(s.asked, place, View(Next(s, HandleNext)))
  {
    var s' := Next(s, HandleNext);
    forall x
      ensures Holds(s.asked, place, View(s')(x), x)
    {
      assert Holds(s.asked, place, View(s)(x), x);
      assert ListAt(s', x) == ListAt(s, x);
    }
  }

  lemma DisconnectedLinked(s: Sys, place: seq<Place>) returns (place': seq<Place>)
    requires s.inbox != [] && s.inbox[0].Disconnected? && Linked(s.asked, place, View(s))
    requires RequestsIn(s.inbox) == RequestsIn(s.inbox[1..])
    ensures Linked(s.asked, place', View(Next(s, HandleNext)))
  {
    hide Linked, ListAt, Handle;
    var s' := Next(s, HandleNext);
    var p := s.inbox[0].peer.key;
    forall x
      ensures View(s')(x) == DisconnectedList(s, p, x)
    {
      DisconnectedLists(s, x);
    }
    place' := MoveBoth(s.asked, place, View(s), View(s'), p, Lost, Lost);
  }

  /** The lists after a disconnect. */
  ghost function DisconnectedList(s: Sys, p: PeerId, x: Place): seq<Request> {
    if x == WaitingAt(p) || x == PendingAt(p) then []
    else if x == Lost then ListAt(s, x) + ListAt(s, WaitingAt(p)) + ListAt(s, PendingAt(p))
    else ListAt(s, x)
  }

  lemma DisconnectedLists(s: Sys, x: Place)
    requires s.inbox != [] && s.inbox[0].Disconnected? && RequestsIn(s.inbox) == RequestsIn(s.inbox[1..])
    ensures ListAt(Next(s, HandleNext), x) == DisconnectedList(s, s.inbox[0].peer.key, x)
  {
    hide RequestsIn, Requests;
  }

  lemma EstablishedLinked(s: Sys, place: seq<Place>) returns (place': seq<Place>)
    requires s.inbox != [] && s.inbox[0].ConnectionEstablished? && Linked(s.asked, place, View(s))
    requires RequestsIn(s.inbox) == RequestsIn(s.inbox[1..])
    ensures Linked(s.asked, place', View(Next(s, HandleNext)))
  {
    hide Linked, ListAt, Handle;
    var s' := Next(s, HandleNext);
    var p, z := s.inbox[0].peer.key, QueuedOn(|s.core.conns|);
    forall x
      ensures View(s')(x) == EstablishedList(s, p, x)
    {
      EstablishedLists(s, x);
    }
    place' := MoveBoth(s.asked, place, View(s), View(s'), p, Greeted, z);
  }

  /** The lists after an established connection. */
  ghost function EstablishedList(s: Sys, p: PeerId, x: Place): seq<Request> {
    if x == WaitingAt(p) || x == PendingAt(p) then []
    else if x == Greeted then ListAt(s, x) + ListAt(s, WaitingAt(p))
    else if x == QueuedOn(|s.core.conns|) then ListAt(s, x) + ListAt(s, PendingAt(p))
    else ListAt(s, x)
  }

  lemma EstablishedLists(s: Sys, x: Place)
    requires s.inbox != [] && s.inbox[0].ConnectionEstablished? && RequestsIn(s.inbox) == RequestsIn(s.inbox[1..])
    ensures ListAt(Next(s, HandleNext), x) == EstablishedList(s, s.inbox[0].peer.key, x)
  {
    hide RequestsIn, Tell;
  }

  lemma FailedLinked(s: Sys, place: seq<Place>) returns (place': seq<Place>)
    requires s.inbox != [] && s.inbox[0].ConnectionFailed? && Linked(s.asked, place, View(s))
    requires RequestsIn(s.inbox) == RequestsIn(s.inbox[1..])
    ensures Linked(s.asked, place', View(Next(s, HandleNext)))
  {
    hide Linked, ListAt, Handle;
    var s' := Next(s, HandleNext);
    var p := s.inbox[0].peer.key;
    forall x
      ensures View(s')(x) == FailedList(s, p, x)
    {
      FailedLists(s, x);
    }
    place' := MoveBoth(s.asked, place, View(s), View(s'), p, Failed, Failed);
  }

  /** The lists after a failed connection. */
  ghost function FailedList(s: Sys, p: PeerId, x: Place): seq<Request> {
    if x == WaitingAt(p) || x == PendingAt(p) then []
    else if x == Failed then ListAt(s, x) + ListAt(s, WaitingAt(p)) + ListAt(s, PendingAt(p))
    else ListAt(s, x)
  }

  lemma FailedLists(s: Sys, x: Place)
    requires s.inbox != [] && s.inbox[0].ConnectionFailed? && RequestsIn(s.inbox) == RequestsIn(s.inbox[1..])
    ensures ListAt(Next(s, HandleNext), x) == FailedList(s, s.inbox[0].peer.key, x)
  {
    hide RequestsIn, Tell, Requests, Tries;
    var p := s.inbox[0].peer.key;
    FailedRequests(s.core.failed, WaitingOf(s.core.peers, p), PendingOf(s.core.peers, p), Err(s.inbox[0].reason));
  }

  lemma FailedRequests(failed: seq<Try>, waiting: seq<Request>, pending: seq<Request>, outcome: Outcome)
    ensures Requests(failed + Tries(waiting, outcome) + Tries(pending, outcome)) == Requests(failed) + waiting + pending
  {
  }

  /** Emptying an entry: those waiting go to `y`, the pending messages to `z`. */
  lemma MoveBoth(asked: seq<Request>, place: seq<Place>, at: Place -> seq<Request>, at': Place -> seq<Request>,
                 p: PeerId, y: Place, z: Place)
    returns (place': seq<Place>)
    requires Linked(asked, place, at)
    requires !y.WaitingAt? && !y.PendingAt? && !z.WaitingAt? && !z.PendingAt?
    requires at'(WaitingAt(p)) == [] && at'(PendingAt(p)) == []
    requires if y == z then at'(y) == at(y) + at(WaitingAt(p)) + at(PendingAt(p))
             else at'(y) == at(y) + at(WaitingAt(p)) && at'(z) == at(z) + at(PendingAt(p))
    requires forall x :: x != y && x != z && x != WaitingAt(p) && x != PendingAt(p) ==> at'(x) == at(x)
    ensures Linked(asked, place', at')
  {
    hide Linked, Relocate;
    var waiting, pending := at(WaitingAt(p)), at(PendingAt(p));
    var mid := (x: Place) => if x == WaitingAt(p) then [] else if x == y then at(y) + waiting else at(x);
    LinkedLength(asked, place, at);
    var place1 := Relocate(asked, place, waiting, y);
    Move(asked, place, at, mid, waiting, WaitingAt(p), y);
    LinkedLength(asked, place1, mid);
    Move(asked, place1, mid, at', pending, PendingAt(p), z);
    place' := Relocate(asked, place1, pending, z);
  }

  lemma LinkedLength(asked: seq<Request>, place: seq<Place>, at: Place -> seq<Request>)
    requires Linked(asked, place, at)
    ensures |asked| == |place|
  {
  }

  // ---------------------------------------------------------------------------------------
  // Notifiers
  // ---------------------------------------------------------------------------------------

  /** The request has ended with this outcome: its connection opened while it waited, its dial
      attempt failed, or a sink answered its message. */
  ghost predicate Ended(c: Core, req: Request, outcome: Outcome) {
    || (outcome == Ok && req in c.greeted)
    || Try(req, outcome) in c.failed
    || exists k :: 0 <= k < |c.conns| && Try(req, outcome) in c.conns[k].tried
  }

  ghost predicate NoticesUnique(notices: seq<Notice>) {
    forall i, j :: 0 <= i < j < |notices| ==> notices[i].id != notices[j].id
  }

  /** The notices sent are exactly those that the ended requests with a notifier call for. */
  ghost predicate NoticesExact(s: Sys) {
    forall i: nat, outcome ::
      Notice(i, outcome) in s.core.notices <==>
      (i < |s.asked| && s.asked[i].notify && Ended(s.core, s.asked[i], outcome))
  }

  lemma EndedIsPlaced(s: Sys, place: seq<Place>, req: Request, outcome: Outcome)
    requires Linked(s.asked, place, View(s)) && Ended(s.core, req, outcome)
    ensures req.id < |s.asked| && s.asked[req.id] == req
    ensures place[req.id].Greeted? || place[req.id].Failed? || place[req.id].TriedOn?
  {
    if outcome == Ok && req in s.core.greeted {
      assert Holds(s.asked, place, View(s)(Greeted), Greeted);
    } else if Try(req, outcome) in s.core.failed {
      InRequests(s.core.failed, req, outcome);
      assert Holds(s.asked, place, View(s)(Failed), Failed);
    } else {
      var k :| 0 <= k < |s.core.conns| && Try(req, outcome) in s.core.conns[k].tried;
      InRequests(s.core.conns[k].tried, req, outcome);
      assert Holds(s.asked, place, View(s)(TriedOn(k)), TriedOn(k));
    }
  }

  lemma InRequests(tries: seq<Try>, req: Request, outcome: Outcome)
    requires Try(req, outcome) in tries
    ensures req in Requests(tries)
  {
    var i :| 0 <= i < |tries| && tries[i] == Try(req, outcome);
    assert Requests(tries)[i] == req;
  }

  lemma {:induction false} TellExact(reqs: seq<Request>, outcome: Outcome)
    requires forall i, j :: 0 <= i < j < |reqs| ==> reqs[i].id != reqs[j].id
    ensures forall n :: n in Tell(reqs, outcome) <==>
              (n.outcome == outcome && exists r :: r in reqs && r.notify && r.id == n.id)
    ensures NoticesUnique(Tell(reqs, outcome))
  {
    if reqs != [] {
      var front, last := reqs[..|reqs| - 1], reqs[|reqs| - 1];
      TellExact(front, outcome);
      assert reqs == front + [last];
    }
  }

  /** Telling requests that have not ended before keeps the ledger exact. */
  lemma TellKeeps(s: Sys, place: seq<Place>, x: Place, told: seq<Request>, outcome: Outcome, s': Sys)
    requires Linked(s.asked, place, View(s)) && NoticesExact(s) && NoticesUnique(s.core.notices)
    requires !x.Greeted? && !x.Failed? && !x.TriedOn?
    requires told <= ListAt(s, x)
    requires s'.asked == s.asked && s'.core.notices == s.core.notices + Tell(told, outcome)
    requires forall r, o :: Ended(s'.core, r, o) <==> (Ended(s.core, r, o) || (r in told && o == outcome))
    ensures NoticesExact(s') && NoticesUnique(s'.core.notices)
  {
    hide ListAt, Tell, Requests;
    var list := ListAt(s, x);
    assert Holds(s.asked, place, View(s)(x), x);
    assert forall i :: 0 <= i < |told| ==> told[i] == list[i] && list[i] in list;
    TellExact(told, outcome);
    var old', new' := s.core.notices, Tell(told, outcome);
    forall m, n | m in old' && n in new'
      ensures m.id != n.id
    {
      assert Notice(m.id, m.outcome) in old';
      EndedIsPlaced(s, place, s.asked[m.id], m.outcome);
      var r :| r in told && r.notify && r.id == n.id;
      assert place[r.id] == x;
    }
    forall i: nat, o
      ensures Notice(i, o) in s'.core.notices <==>
              (i < |s'.asked| && s'.asked[i].notify && Ended(s'.core, s'.asked[i], o))
    {
      assert Notice(i, o) in s'.core.notices <==> Notice(i, o) in old' || Notice(i, o) in new';
      if Notice(i, o) in new' {
        var r :| r in told && r.notify && r.id == i;
        assert s.asked[i] == r;
      }
    }
  }

  /** Steps that end no request and tell nobody. */
  lemma SilentStep(s: Sys, place: seq<Place>, s': Sys)
    requires Linked(s.asked, place, View(s)) && NoticesExact(s)
    requires s.asked <= s'.asked && s'.core.notices == s.core.notices
    requires s'.core.greeted == s.core.greeted && s'.core.failed == s.core.failed
    requires |s'.core.conns| >= |s.core.conns|
    requires forall k :: 0 <= k < |s'.core.conns| ==>
               s'.core.conns[k].tried == if k < |s.core.conns| then s.core.conns[k].tried else []
    requires forall i :: |s.asked| <= i < |s'.asked| ==> s'.asked[i].id == i
    ensures NoticesExact(s')
  {
    forall r, o
      ensures Ended(s'.core, r, o) <==> Ended(s.core, r, o)
    {
      if k :| 0 <= k < |s.core.conns| && Try(r, o) in s.core.conns[k].tried {
        assert Try(r, o) in s'.core.conns[k].tried;
      }
    }
    forall i: nat, o
      ensures Notice(i, o) in s'.core.notices <==>
              (i < |s'.asked| && s'.asked[i].notify && Ended(s'.core, s'.asked[i], o))
    {
      if |s.asked| <= i < |s'.asked| && Ended(s.core, s'.asked[i], o) {
        EndedIsPlaced(s, place, s'.asked[i], o);
        assert false;
      }
    }
  }

  lemma NoticesStep(s: Sys, a: Action, place: seq<Place>)
    requires Shape(s) && Enabled(s, a)
    requires Linked(s.asked, place, View(s)) && NoticesExact(s) && NoticesUnique(s.core.notices)
    ensures NoticesExact(Next(s, a)) && NoticesUnique(Next(s, a).core.notices)
  {
    var s' := Next(s, a);
    if a.WriteNext? {
      WriteNotices(s, a.conn, a.outcome, place);
    } else if a.HandleNext? && s.inbox[0].ConnectionEstablished? {
      EstablishedNotices(s, place);
    } else if a.HandleNext? && s.inbox[0].ConnectionFailed? {
      FailedNotices(s, place);
    } else {
      SilentStep(s, place, s');
    }
  }

  lemma WriteNotices(s: Sys, k: nat, outcome: Outcome, place: seq<Place>)
    requires Enabled(s, WriteNext(k, outcome))
    requires Linked(s.asked, place, View(s)) && NoticesExact(s) && NoticesUnique(s.core.notices)
    ensures var s' := Next(s, WriteNext(k, outcome)); NoticesExact(s') && NoticesUnique(s'.core.notices)
  {
    var s' := Next(s, WriteNext(k, outcome));
    var req := s.core.conns[k].queue[0];
    assert Tell([req], outcome) == TellOne(req, outcome) by {
      assert [req][..0] == [];
    }
    forall r, o
      ensures Ended(s'.core, r, o) <==> (Ended(s.core, r, o) || (r in [req] && o == outcome))
    {
      if j :| 0 <= j < |s.core.conns| && Try(r, o) in s.core.conns[j].tried {
        assert Try(r, o) in s'.core.conns[j].tried;
      }
      if r == req && o == outcome {
        assert Try(r, o) in s'.core.conns[k].tried;
      }
    }
    TellKeeps(s, place, QueuedOn(k), [req], outcome, s');
  }

  lemma EstablishedNotices(s: Sys, place: seq<Place>)
    requires s.inbox != [] && s.inbox[0].ConnectionEstablished?
    requires Linked(s.asked, place, View(s)) && NoticesExact(s) && NoticesUnique(s.core.notices)
    ensures var s' := Next(s, HandleNext); NoticesExact(s') && NoticesUnique(s'.core.notices)
  {
    var s' := Next(s, HandleNext);
    var p := s.inbox[0].peer.key;
    var told := WaitingOf(s.core.peers, p);
    forall r, o
      ensures Ended(s'.core, r, o) <==> (Ended(s.core, r, o) || (r in told && o == Ok))
    {
      if j :| 0 <= j < |s.core.conns| && Try(r, o) in s.core.conns[j].tried {
        assert Try(r, o) in s'.core.conns[j].tried;
      }
    }
    TellKeeps(s, place, WaitingAt(p), told, Ok, s');
  }

  lemma FailedNotices(s: Sys, place: seq<Place>)
    requires s.inbox != [] && s.inbox[0].ConnectionFailed?
    requires Linked(s.asked, place, View(s)) && NoticesExact(s) && NoticesUnique(s.core.notices)
    ensures var s' := Next(s, HandleNext); NoticesExact(s') && NoticesUnique(s'.core.notices)
  {
    var s' := Next(s, HandleNext);
    var p, res := s.inbox[0].peer.key, Err(s.inbox[0].reason);
    var waiting, pending := WaitingOf(s.core.peers, p), PendingOf(s.core.peers, p);
    var mid := HalfFailed(s, p, res);
    FailedMid(s, place, p, res);
    TellKeeps(s, place, WaitingAt(p), waiting, res, mid);
    FailedRest(mid, p, res, s');
    TellKeeps(mid, Relocate(s.asked, place, waiting, Failed), PendingAt(p), pending, res, s');
  }

  /** The state half way through a failed connection: those waiting have been told. */
  ghost function HalfFailed(s: Sys, p: PeerId, res: Outcome): Sys {
    var waiting, pending := WaitingOf(s.core.peers, p), PendingOf(s.core.peers, p);
    s.(core := s.core.(
      peers := s.core.peers[p := Connecting([], pending)],
      notices := s.core.notices + Tell(waiting, res),
      failed := s.core.failed + Tries(waiting, res)))
  }

  lemma FailedMid(s: Sys, place: seq<Place>, p: PeerId, res: Outcome)
    requires Linked(s.asked, place, View(s))
    ensures var waiting, mid := WaitingOf(s.core.peers, p), HalfFailed(s, p, res);
            && Linked(s.asked, Relocate(s.asked, place, waiting, Failed), View(mid))
            && forall r, o :: Ended(mid.core, r, o) <==> (Ended(s.core, r, o) || (r in waiting && o == res))
  {
    var waiting, mid := WaitingOf(s.core.peers, p), HalfFailed(s, p, res);
    TriesExact(waiting, res);
    assert Requests(mid.core.failed) == Requests(s.core.failed) + waiting;
    assert ListAt(mid, WaitingAt(p)) == [];
    Move(s.asked, place, View(s), View(mid), waiting, WaitingAt(p), Failed);
  }

  lemma FailedRest(mid: Sys, p: PeerId, res: Outcome, s': Sys)
    requires p in mid.core.peers && mid.core.peers[p].Connecting?
    requires s'.core.greeted == mid.core.greeted && s'.core.conns == mid.core.conns
    requires s'.core.failed == mid.core.failed + Tries(PendingOf(mid.core.peers, p), res)
    ensures forall r, o :: Ended(s'.core, r, o) <==>
              (Ended(mid.core, r, o) || (r in PendingOf(mid.core.peers, p) && o == res))
  {
    TriesExact(PendingOf(mid.core.peers, p), res);
  }

  lemma TriesExact(reqs: seq<Request>, outcome: Outcome)
    ensures forall t :: t in Tries(reqs, outcome) <==> (t.outcome == outcome && t.req in reqs)
  {
    forall t: Try | t.outcome == outcome && t.req in reqs
      ensures t in Tries(reqs, outcome)
    {
      var i :| 0 <= i < |reqs| && reqs[i] == t.req;
      assert Tries(reqs, outcome)[i] == t;
    }
  }

  // ---------------------------------------------------------------------------------------
  // What holds after every run
  // ---------------------------------------------------------------------------------------

  ghost predicate SendsTo(reqs: seq<Request>, p: PeerId) {
    forall r :: r in reqs ==> r.Send? && r.to.key == p
  }

  ghost predicate ConnectsTo(reqs: seq<Request>, p: PeerId) {
    forall r :: r in reqs ==> r.Connect? && r.notify && r.to.key == p
  }

  ghost predicate TriesTo(tries: seq<Try>, p: PeerId) {
    forall t :: t in tries ==> t.req.Send? && t.req.to.key == p
  }

  ghost predicate AllConnects(reqs: seq<Request>) {
    forall r :: r in reqs ==> r.Connect?
  }

  ghost predicate AllErrs(tries: seq<Try>) {
    forall t :: t in tries ==> t.outcome.Err?
  }

  ghost predicate ConnKinds(conn: Conn) {
    SendsTo(conn.queue, conn.peer.key) && TriesTo(conn.tried, conn.peer.key)
  }

  ghost predicate EntryKinds(peers: map<PeerId, ConnectState>, p: PeerId) {
    ConnectsTo(WaitingOf(peers, p), p) && SendsTo(PendingOf(peers, p), p)
  }

  ghost predicate LogKinds(c: Core) {
    AllConnects(c.greeted) && AllConnects(c.ignored) && AllErrs(c.failed)
  }

  /** Requests go only where their kind can go, and only to the peer they were made for. */
  ghost predicate KindsOk(c: Core) {
    && (forall p :: EntryKinds(c.peers, p))
    && (forall k :: 0 <= k < |c.conns| ==> ConnKinds(c.conns[k]))
    && LogKinds(c)
  }

  lemma KindsStep(s: Sys, a: Action)
    requires Shape(s) && Enabled(s, a) && KindsOk(s.core)
    ensures KindsOk(Next(s, a).core)
  {
    hide EntryKinds, LogKinds, ConnKinds;
    match a {
      case HandleNext =>
        assert s.inbox[0] in s.inbox && EventOk(s.core, s.inbox[0]);
        KindsHandle(s.core, s.inbox[0]);
      case WriteNext(k, outcome) => KindsWrite(s, k, outcome);
      case _ => KindsQuiet(s, a);
    }
  }

  lemma KindsWrite(s: Sys, k: nat, outcome: Outcome)
    requires Enabled(s, WriteNext(k, outcome)) && KindsOk(s.core)
    ensures KindsOk(Next(s, WriteNext(k, outcome)).core)
  {
    hide EntryKinds;
    var c, c' := s.core, Next(s, WriteNext(k, outcome)).core;
    forall j | 0 <= j < |c'.conns|
      ensures ConnKinds(c'.conns[j])
    {
      assert ConnKinds(c.conns[j]);
      assert c.conns[k].queue[0] in c.conns[k].queue;
    }
  }

  lemma KindsQuiet(s: Sys, a: Action)
    requires Enabled(s, a) && !a.HandleNext? && !a.WriteNext? && KindsOk(s.core)
    ensures KindsOk(Next(s, a).core)
  {
    hide EntryKinds, SendsTo, TriesTo;
    var c, c' := s.core, Next(s, a).core;
    assert c'.peers == c.peers;
    forall k | 0 <= k < |c'.conns|
      ensures ConnKinds(c'.conns[k])
    {
      assert ConnKinds(c.conns[k]);
    }
  }

  lemma KindsHandle(c: Core, e: Event)
    requires SendersOk(c) && EventOk(c, e) && KindsOk(c)
    ensures KindsOk(Handle(c, e))
  {
    hide Handle, EventOk, LogKinds, ConnKinds;
    forall p
      ensures EntryKinds(Handle(c, e).peers, p)
    {
      KindsOfEntry(c, e, p);
    }
    forall k | 0 <= k < |Handle(c, e).conns|
      ensures ConnKinds(Handle(c, e).conns[k])
    {
      KindsOfConn(c, e, k);
    }
    KindsOfLogs(c, e);
  }

  lemma KindsOfEntry(c: Core, e: Event, p: PeerId)
    requires EventOk(c, e) && KindsOk(c)
    ensures EntryKinds(Handle(c, e).peers, p)
  {
    hide ConnKinds, LogKinds;
    assert EntryKinds(c.peers, p);
  }

  lemma KindsOfConn(c: Core, e: Event, k: nat)
    requires SendersOk(c) && EventOk(c, e) && KindsOk(c) && k < |Handle(c, e).conns|
    ensures ConnKinds(Handle(c, e).conns[k])
  {
    hide LogKinds;
    assert k < |c.conns| ==> ConnKinds(c.conns[k]);
    assert e.ConnectionEstablished? ==> EntryKinds(c.peers, e.peer.key);
  }

  lemma KindsOfLogs(c: Core, e: Event)
    requires EventOk(c, e) && KindsOk(c)
    ensures LogKinds(Handle(c, e))
  {
    hide ConnKinds;
    assert EntryKinds(c.peers, e.peer.key);
    if e.ConnectionFailed? {
      TriesExact(WaitingOf(c.peers, e.peer.key), Err(e.reason));
      TriesExact(PendingOf(c.peers, e.peer.key), Err(e.reason));
    }
  }

  lemma {:induction false} LinkedAlways(acts: seq<Action>) returns (place: seq<Place>)
    requires Run(acts).Some?
    ensures var s := Run(acts).value;
            && Shape(s) && KindsOk(s.core)
            && Linked(s.asked, place, View(s)) && NoticesExact(s) && NoticesUnique(s.core.notices)
  {
    if acts == [] {
      place := [];
    } else {
      hide KindsOk, Linked, NoticesExact, NoticesUnique, Shape;
      var front, a := acts[..|acts| - 1], acts[|acts| - 1];
      var place0 := LinkedAlways(front);
      var s := Run(front).value;
      ShapeStep(s, a);
      KindsStep(s, a);
      NoticesStep(s, a, place0);
      place := StepLinked(s, a, place0);
    }
  }

  /** Who can be at a place: requests of the right kind, made for the place's peer. */
  predicate Fits(c: Core, x: Place, r: Request) {
    match x
    case Unhandled => true
    case WaitingAt(p) => r.Connect? && r.notify && r.to.key == p
    case PendingAt(p) => r.Send? && r.to.key == p
    case QueuedOn(k) => k < |c.conns| && r.Send? && r.to.key == c.conns[k].peer.key
    case TriedOn(k) => k < |c.conns| && r.Send? && r.to.key == c.conns[k].peer.key
    case Greeted => r.Connect?
    case Ignored => r.Connect?
    case Failed => true
    case Lost => true
  }

  lemma PlacesFit(s: Sys, x: Place, r: Request)
    requires KindsOk(s.core) && r in ListAt(s, x)
    ensures Fits(s.core, x, r)
  {
    match x {
      case WaitingAt(p) => assert EntryKinds(s.core.peers, p);
      case PendingAt(p) => assert EntryKinds(s.core.peers, p);
      case QueuedOn(k) => assert ConnKinds(s.core.conns[k]);
      case TriedOn(k) =>
        assert ConnKinds(s.core.conns[k]);
        var j :| 0 <= j < |s.core.conns[k].tried| && Requests(s.core.conns[k].tried)[j] == r;
        assert s.core.conns[k].tried[j] in s.core.conns[k].tried;
      case _ =>
    }
  }

  /** Conservation: after every run each request ever made is in exactly one place, and once; and
      that place is one for its kind and its own peer. */
  lemma Conservation(acts: seq<Action>, i: nat)
    requires Run(acts).Some? && i < |Run(acts).value.asked|
    ensures var s := Run(acts).value;
            && (exists x :: s.asked[i] in ListAt(s, x))
            && (forall x, y :: s.asked[i] in ListAt(s, x) && s.asked[i] in ListAt(s, y) ==> x == y)
            && (forall x :: s.asked[i] in ListAt(s, x) ==> Fits(s.core, x, s.asked[i]))
            && (forall x :: NoDup(ListAt(s, x)))
    ensures var s := Run(acts).value; forall x, r :: r in ListAt(s, x) ==> r in s.asked
  {
    hide Fits, KindsOk, ListAt, NoticesExact, NoticesUnique;
    var s := Run(acts).value;
    var place := LinkedAlways(acts);
    forall x
      ensures Holds(s.asked, place, ListAt(s, x), x)
    {
      assert Holds(s.asked, place, View(s)(x), x);
    }
    assert s.asked[i] in ListAt(s, place[i]);
    forall x | s.asked[i] in ListAt(s, x)
      ensures Fits(s.core, x, s.asked[i])
    {
      PlacesFit(s, x, s.asked[i]);
    }
  }

  /** No message is given to a sink twice, on one connection or on two. */
  lemma TriedAtMostOnce(acts: seq<Action>, k: nat, i: nat, l: nat, j: nat)
    requires Run(acts).Some?
    requires var conns := Run(acts).value.core.conns;
             && k < |conns| && i < |conns[k].tried| && l < |conns| && j < |conns[l].tried|
             && conns[k].tried[i].req == conns[l].tried[j].req
    ensures k == l && i == j
  {
    var s := Run(acts).value;
    var place := LinkedAlways(acts);
    var here, there := Requests(s.core.conns[k].tried), Requests(s.core.conns[l].tried);
    assert Holds(s.asked, place, View(s)(TriedOn(k)), TriedOn(k)) && Holds(s.asked, place, View(s)(TriedOn(l)), TriedOn(l));
    assert here[i] in here && there[j] in there;
  }

  /** Every notifier fires at most once, and has fired exactly when its request has ended. */
  lemma NotifiedOnce(acts: seq<Action>)
    requires Run(acts).Some?
    ensures var s := Run(acts).value; NoticesUnique(s.core.notices) && NoticesExact(s)
  {
    var place := LinkedAlways(acts);
  }
}
