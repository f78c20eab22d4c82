/** Two handlers at the ends of a network: what one passes up was sent by the other, and no send is
    passed up twice. The channel protocol's network, which loses messages and delivers none twice,
    rests on this. */
module PeerLink {
  import opened Options
  import opened PeerHandler
  import opened PeerSystem
  import opened PeerConservation
  import opened PeerOrder

  /** Which connection of the sender each connection of the receiver is the other end of, and which
      of the messages given to the sender's sink come out there. */
  datatype Wire = Wire(ends: map<nat, nat>, picks: map<nat, seq<nat>>)

  ghost predicate Increasing(picks: seq<nat>) {
    forall i, j :: 0 <= i < j < |picks| ==> picks[i] < picks[j]
  }

  /** What comes out of a connection is a part, in order, of what its writer tried to send. */
  ghost predicate Transmits(tried: seq<Try>, picks: seq<nat>, stream: seq<Message>) {
    && Increasing(picks) && |picks| == |stream|
    && forall j :: 0 <= j < |picks| ==>
         picks[j] < |tried| && tried[picks[j]].req.Send? && tried[picks[j]].req.message == stream[j]
  }

  /** Connections have two ends, and transmit. */
  ghost predicate Joins(wire: Wire, s: Sys, t: Sys) {
    && (forall l, k :: l in wire.ends && k in wire.ends && wire.ends[l] == wire.ends[k] ==> l == k)
    && forall l :: l in wire.ends ==>
         && l < |t.core.conns| && wire.ends[l] < |s.core.conns| && l in wire.picks
         && Transmits(s.core.conns[wire.ends[l]].tried, wire.picks[l], StreamOf(t.hist, l))
  }

  /** The place of a delivery among those of its connection. */
  function Slot(ds: seq<Delivery>, u: nat): nat
    requires u < |ds|
  {
    |DeliveredFrom(ds[..u], ds[u].conn)|
  }

  lemma {:induction false} SlotHolds(ds: seq<Delivery>, u: nat)
    requires u < |ds|
    ensures var from := DeliveredFrom(ds, ds[u].conn); Slot(ds, u) < |from| && from[Slot(ds, u)] == ds[u].message
  {
    var front := ds[..|ds| - 1];
    if u < |front| {
      SlotHolds(front, u);
      assert front[..u] == ds[..u];
    }
  }

  lemma {:induction false} SlotsApart(ds: seq<Delivery>, u: nat, v: nat)
    requires u < v < |ds| && ds[u].conn == ds[v].conn
    ensures Slot(ds, u) < Slot(ds, v)
  {
    SlotHolds(ds[..v], u);
    assert ds[..v][..u] == ds[..u];
  }

  /** The try at the sender that the `u`-th delivery of the receiver comes from: its connection and
      its position there. */
  function OriginOf(wire: Wire, ds: seq<Delivery>, u: nat): (nat, nat)
    requires u < |ds| && ds[u].conn in wire.ends && ds[u].conn in wire.picks
    requires Slot(ds, u) < |wire.picks[ds[u].conn]|
  {
    (wire.ends[ds[u].conn], wire.picks[ds[u].conn][Slot(ds, u)])
  }

  /** Every message that the receiver passes up from a joined connection is the message of a send
      that the sender's sink was given on the other end, ... */
  lemma DeliveryIsASend(sender: seq<Action>, receiver: seq<Action>, wire: Wire, u: nat)
    requires Run(sender).Some? && Run(receiver).Some? && Joins(wire, Run(sender).value, Run(receiver).value)
    requires u < |Run(receiver).value.core.delivered| && Run(receiver).value.core.delivered[u].conn in wire.ends
    ensures var s, ds := Run(sender).value, Run(receiver).value.core.delivered;
            && ds[u].conn in wire.picks && Slot(ds, u) < |wire.picks[ds[u].conn]|
            && var (k, i) := OriginOf(wire, ds, u);
               && k < |s.core.conns| && i < |s.core.conns[k].tried|
               && var req := s.core.conns[k].tried[i].req;
                  && req in s.asked && req.Send? && req.message == ds[u].message && req.to.key == s.core.conns[k].peer.key
  {
    hide Run, Slot, Increasing;
    var s, t := Run(sender).value, Run(receiver).value;
    var l := t.core.delivered[u].conn;
    IncomingInOrder(receiver);
    assert StreamKept(t, l);
    SlotHolds(t.core.delivered, u);
    var (k, i) := OriginOf(wire, t.core.delivered, u);
    TriedWasAsked(sender, k, i);
  }

  lemma TriedWasAsked(acts: seq<Action>, k: nat, i: nat)
    requires Run(acts).Some? && k < |Run(acts).value.core.conns| && i < |Run(acts).value.core.conns[k].tried|
    ensures var s := Run(acts).value;
            var req := s.core.conns[k].tried[i].req;
            req in s.asked && req.Send? && req.to.key == s.core.conns[k].peer.key
  {
    hide Run;
    var s := Run(acts).value;
    var place := LinkedAlways(acts);
    var req := s.core.conns[k].tried[i].req;
    assert Requests(s.core.conns[k].tried)[i] == req;
    PlacesFit(s, TriedOn(k), req);
    assert Holds(s.asked, place, View(s)(TriedOn(k)), TriedOn(k));
  }

  /** ... and no send is passed up twice, on one connection or on two. */
  lemma DeliveredAtMostOnce(sender: seq<Action>, receiver: seq<Action>, wire: Wire, u: nat, v: nat)
    requires Run(sender).Some? && Run(receiver).Some? && Joins(wire, Run(sender).value, Run(receiver).value)
    requires var ds := Run(receiver).value.core.delivered;
             u < v < |ds| && ds[u].conn in wire.ends && ds[v].conn in wire.ends
    ensures var s, ds := Run(sender).value, Run(receiver).value.core.delivered;
            && ds[u].conn in wire.picks && Slot(ds, u) < |wire.picks[ds[u].conn]|
            && ds[v].conn in wire.picks && Slot(ds, v) < |wire.picks[ds[v].conn]|
            && var ((k, i), (l, j)) := (OriginOf(wire, ds, u), OriginOf(wire, ds, v));
               && k < |s.core.conns| && i < |s.core.conns[k].tried| && l < |s.core.conns| && j < |s.core.conns[l].tried|
               && s.core.conns[k].tried[i].req.id != s.core.conns[l].tried[j].req.id
               && (k == l ==> i < j)
  {
    hide Run, Slot;
    var s, ds := Run(sender).value, Run(receiver).value.core.delivered;
    DeliveryIsASend(sender, receiver, wire, u);
    DeliveryIsASend(sender, receiver, wire, v);
    var ((k, i), (l, j)) := (OriginOf(wire, ds, u), OriginOf(wire, ds, v));
    if k == l {
      SlotsApart(ds, u, v);
    }
    if s.core.conns[k].tried[i].req.id == s.core.conns[l].tried[j].req.id {
      SameIdSameTry(sender, k, i, l, j);
    }
  }

  lemma SameIdSameTry(acts: seq<Action>, k: nat, i: nat, l: nat, j: nat)
    requires Run(acts).Some?
    requires var conns := Run(acts).value.core.conns;
             && k < |conns| && i < |conns[k].tried| && l < |conns| && j < |conns[l].tried|
             && conns[k].tried[i].req.id == conns[l].tried[j].req.id
    ensures k == l && i == j
  {
    hide Run;
    var s := Run(acts).value;
    var place := LinkedAlways(acts);
    TriedWasAsked(acts, k, i);
    TriedWasAsked(acts, l, j);
    TriedAtMostOnce(acts, k, i, l, j);
  }
}
