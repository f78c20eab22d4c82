/** How the channels of one node move, among arbitrary peers, and exactly when they move forward:
    when no channel is opened under an id that the node already holds. */
module Progress {
  import opened Options
  import opened Sequences
  import opened Crypto
  import opened Bitcoin
  import opened Channels
  import opened ForceClose
  import opened Nodes

  /** The ways a stored channel can change: not at all, or one step along its party's path. */
  predicate MovesOn(c: Channel, d: Channel) {
    c == d ||
    (d == c.(state := d.state) &&
     match c.state
     case Pending(_) => d.state.ReadyToFund?
     case ReadyToFund(_, commit, sig) => d.state == Live(0, commit, sig)
     case Live(_, _, _) => d.state.Closed?
     case WaitingForFund => d.state.Funded?
     case _ => false)
  }

  /** Each stored channel stays stored, and stays as it is or moves one step on. */
  ghost predicate Forward(db: Db, db': Db) {
    forall id :: id in db ==> id in db' && MovesOn(db[id], db'[id])
  }

  /** No two watchers wait for the same channel. */
  ghost predicate OneWatcherEach(watchers: seq<Watcher>) {
    forall i, j :: 0 <= i < j < |watchers| && watchers[i].live && watchers[j].live ==>
      watchers[i].channel.id != watchers[j].channel.id
  }

  ghost predicate Unwatched(watchers: seq<Watcher>, id: ChannelId) {
    forall i :: 0 <= i < |watchers| && watchers[i].live ==> watchers[i].channel.id != id
  }

  /** A new channel `c` gets in nobody's way: its id is not held, or it is held by this very channel
      and nobody waits for it. */
  ghost predicate HasRoom(n: Node, c: Channel) {
    c.id !in n.db || (n.db[c.id] == c && Unwatched(n.watchers, c.id))
  }

  predicate IsNew(c: Channel) {
    c.state.Pending? || c.state.WaitingForFund?
  }

  ghost predicate TidyInsert(n: Node) {
    n.job.Inserting? && IsNew(n.job.channel) ==> HasRoom(n, n.job.channel)
  }

  // ---------------------------------------------------------------------------------------
  // The invariant
  // ---------------------------------------------------------------------------------------

  /** A watcher that still waits holds what the store holds. */
  ghost predicate WatchersHold(db: Db, watchers: seq<Watcher>) {
    forall i :: 0 <= i < |watchers| && watchers[i].live ==>
      var c := watchers[i].channel;
      Watches(c) && c.id in db && db[c.id] == c
  }

  /** What is about to be stored is new or one step ahead of what is stored. */
  predicate JobHolds(db: Db, job: Job) {
    job.Inserting? && !IsNew(job.channel) ==>
      && job.channel.id in db
      && job.channel != db[job.channel.id] && MovesOn(db[job.channel.id], job.channel)
      && (job.channel.state.ReadyToFund? || job.channel.state.Closed?)
  }

  ghost predicate ClosesHold(db: Db, closes: seq<ChannelId>) {
    NoDup(closes) && forall id :: id in closes ==> id in db && db[id].state.Closed?
  }

  ghost predicate Orderly(n: Node) {
    && (forall id :: id in n.db ==> n.db[id].id == id)
    && WatchersHold(n.db, n.watchers) && OneWatcherEach(n.watchers)
    && JobHolds(n.db, n.job)
    && ClosesHold(n.db, n.closes)
  }

  ghost predicate Advances(n: Node, n': Node) {
    Forward(n.db, n'.db) && OneWatcherEach(n'.watchers)
  }

  lemma TakeUp(e: Env, n: Node, a: Action, chain: set<Transaction>)
    requires Orderly(n) && Enabled(e, n, a, chain) && !a.Insert? && !a.Fire?
    ensures Orderly(Next(e, n, a, chain)) && Advances(n, Next(e, n, a, chain))
  {
    hide WatchersHold, OneWatcherEach, ClosesHold, GoodCommitSig, FundingDescriptor, CloseLive, AckFor, OfferFor, OutputValue;
    assert Forward(n.db, n.db);
  }

  lemma InsertOrderly(e: Env, n: Node, chain: set<Transaction>)
    requires Orderly(n) && Enabled(e, n, Insert, chain) && TidyInsert(n)
    ensures Orderly(Next(e, n, Insert, chain)) && Advances(n, Next(e, n, Insert, chain))
  {
    hide FundsOk;
    var n', c := Next(e, n, Insert, chain), n.job.channel;
    if !IsNew(c) {
      assert Unwatched(n.watchers, c.id);
    }
  }

  lemma FireOrderly(e: Env, n: Node, i: nat, tx: Transaction, chain: set<Transaction>)
    requires Orderly(n) && Enabled(e, n, Fire(i, tx), chain)
    ensures Orderly(Next(e, n, Fire(i, tx), chain)) && Advances(n, Next(e, n, Fire(i, tx), chain))
  {
    hide FundsOk, Matches, FundingDescriptor;
    assert Watches(n.watchers[i].channel);
  }

  /** Storing a new channel where there is no room sends a stored channel back or makes two
      watchers wait for one. */
  lemma InsertInTheWay(e: Env, n: Node, chain: set<Transaction>)
    requires Orderly(n) && Enabled(e, n, Insert, chain) && !TidyInsert(n)
    ensures !Advances(n, Next(e, n, Insert, chain))
  {
    hide FundsOk;
    var n', c := Next(e, n, Insert, chain), n.job.channel;
    if n.db[c.id] == c {
      var i :| 0 <= i < |n.watchers| && n.watchers[i].live && n.watchers[i].channel.id == c.id;
      assert n'.watchers[i] == n.watchers[i] && n'.watchers[|n.watchers|] == Watcher(c, true);
    } else {
      assert !MovesOn(n.db[c.id], n'.db[c.id]);
    }
  }

  lemma OrderlyStep(e: Env, n: Node, a: Action, chain: set<Transaction>)
    requires Orderly(n) && Enabled(e, n, a, chain)
    ensures a.Insert? && !TidyInsert(n) ==> !Advances(n, Next(e, n, a, chain))
    ensures !(a.Insert? && !TidyInsert(n)) ==> Orderly(Next(e, n, a, chain)) && Advances(n, Next(e, n, a, chain))
  {
    hide Orderly, Advances, Next, TidyInsert, Enabled;
    match a {
      case Insert =>
        if TidyInsert(n) {
          InsertOrderly(e, n, chain);
        } else {
          InsertInTheWay(e, n, chain);
        }
      case Fire(i, tx) => FireOrderly(e, n, i, tx, chain);
      case _ => TakeUp(e, n, a, chain);
    }
  }

  // ---------------------------------------------------------------------------------------
  // Runs
  // ---------------------------------------------------------------------------------------

  /** In each step of the run the channels move forward, and after it each has at most one watcher. */
  ghost predicate AlwaysAdvances(e: Env, acts: seq<SoloAction>)
    requires Run(e, acts).Some?
  {
    acts != [] ==>
      && AlwaysAdvances(e, acts[..|acts| - 1])
      && Advances(Run(e, acts[..|acts| - 1]).value.node, Run(e, acts).value.node)
  }

  /** Each new channel that the run stores has room. */
  ghost predicate AlwaysTidy(e: Env, acts: seq<SoloAction>)
    requires Run(e, acts).Some?
  {
    acts != [] ==>
      && AlwaysTidy(e, acts[..|acts| - 1])
      && (acts[|acts| - 1] == Own(Insert) ==> TidyInsert(Run(e, acts[..|acts| - 1]).value.node))
  }

  lemma FreshIsOrderly()
    ensures Orderly(FRESH_NODE)
  {
  }

  lemma {:induction false} TidyIsOrderly(e: Env, acts: seq<SoloAction>)
    requires Run(e, acts).Some? && AlwaysTidy(e, acts)
    ensures Orderly(Run(e, acts).value.node)
  {
    hide Orderly, TidyInsert, Next, Enabled;
    if acts == [] {
      FreshIsOrderly();
    } else {
      var front, last := acts[..|acts| - 1], acts[|acts| - 1];
      TidyIsOrderly(e, front);
      var w := Run(e, front).value;
      if last.Own? {
        OrderlyStep(e, w.node, last.a, w.chain);
      }
    }
  }

  lemma StandsStill(n: Node)
    requires Orderly(n)
    ensures Advances(n, n)
  {
  }

  /** Channels only move forward, with at most one watcher each, exactly in the runs in which every
      new channel finds room when it is stored; the peers, the messages and the primitives may be
      anything. */
  lemma {:induction false} ForwardExactlyWhen(e: Env, acts: seq<SoloAction>)
    requires Run(e, acts).Some?
    ensures AlwaysAdvances(e, acts) <==> AlwaysTidy(e, acts)
  {
    hide Orderly, TidyInsert, Next, Enabled, Advances;
    if acts != [] {
      var front, last := acts[..|acts| - 1], acts[|acts| - 1];
      ForwardExactlyWhen(e, front);
      if AlwaysTidy(e, front) {
        TidyIsOrderly(e, front);
        var w := Run(e, front).value;
        match last {
          case Own(a) => OrderlyStep(e, w.node, a, w.chain);
          case Mine(_) => StandsStill(w.node);
        }
      }
    }
  }

  // ---------------------------------------------------------------------------------------
  // Fresh ids
  // ---------------------------------------------------------------------------------------

  /** The channel that an action opens. */
  function Opened(e: Env, a: Action): Option<Channel>
    requires a.BeginNew? ==> HasFundingOutput(a.fundTx)
  {
    match a
    case BeginNew(peer, value, f) => Some(PendingChannel(e.h, peer, value, f))
    case BeginOffer(from, offer, _) => Some(AcceptedChannel(from, offer))
    case _ => None
  }

  /** Taking up and storing a new channel, with nothing in between, moves every channel forward and
      leaves at most one watcher each exactly when there is room for it; a held id has room only for
      a repetition of the very same opening that nobody waits for. */
  lemma OpeningExactlyWhen(e: Env, n: Node, a: Action, chain: set<Transaction>)
    requires Orderly(n) && Enabled(e, n, a, chain) && (a.BeginNew? || a.BeginOffer?)
    ensures var begun := Next(e, n, a, chain);
            var c := Opened(e, a).value;
            && Enabled(e, begun, Insert, chain)
            && (Advances(n, Next(e, begun, Insert, chain)) <==>
                  c.id !in n.db || (n.db[c.id] == c && Unwatched(n.watchers, c.id)))
  {
    hide Orderly, Advances, OfferFor, AckFor, PendingChannel;
    var begun := Next(e, n, a, chain);
    OrderlyStep(e, n, a, chain);
    OrderlyStep(e, begun, Insert, chain);
    SameStores(n, begun, Next(e, begun, Insert, chain));
    OpenedIsNew(e, a);
  }

  lemma OpenedIsNew(e: Env, a: Action)
    requires a.BeginNew? ==> HasFundingOutput(a.fundTx)
    ensures Opened(e, a).Some? ==> IsNew(Opened(e, a).value)
  {
  }

  lemma SameStores(n: Node, m: Node, n': Node)
    requires n.db == m.db
    ensures Advances(n, n') <==> Advances(m, n')
  {
  }

  /** Every opening of the run names an id that the node does not hold. */
  ghost predicate FreshIds(e: Env, acts: seq<SoloAction>)
    requires Run(e, acts).Some?
  {
    acts != [] ==>
      var w, last := Run(e, acts[..|acts| - 1]).value, acts[|acts| - 1];
      && FreshIds(e, acts[..|acts| - 1])
      && (last.Own? && Opened(e, last.a).Some? ==> Opened(e, last.a).value.id !in w.node.db)
  }

  /** A new channel about to be stored keeps its room: no watcher can take it. */
  lemma RoomStays(e: Env, n: Node, a: Action, chain: set<Transaction>)
    requires Orderly(n) && TidyInsert(n) && Enabled(e, n, a, chain)
    requires Opened(e, a).Some? ==> Opened(e, a).value.id !in n.db
    ensures TidyInsert(Next(e, n, a, chain))
  {
    hide ClosesHold, OneWatcherEach, Matches, FundingDescriptor, CloseLive, AckFor, OfferFor, GoodCommitSig, OutputValue;
  }

  lemma {:induction false} FreshIsTidy(e: Env, acts: seq<SoloAction>)
    requires Run(e, acts).Some? && FreshIds(e, acts)
    ensures AlwaysTidy(e, acts) && TidyInsert(Run(e, acts).value.node)
  {
    hide Orderly, TidyInsert, Next, Enabled, Opened;
    if acts == [] {
      FreshHasNoJob();
    } else {
      var front, last := acts[..|acts| - 1], acts[|acts| - 1];
      FreshIsTidy(e, front);
      TidyIsOrderly(e, front);
      var w := Run(e, front).value;
      if last.Own? {
        FundsAreThere(e, w.node, last.a, w.chain);
        RoomStays(e, w.node, last.a, w.chain);
      }
    }
  }

  lemma FreshHasNoJob()
    ensures TidyInsert(FRESH_NODE)
  {
  }

  lemma FundsAreThere(e: Env, n: Node, a: Action, chain: set<Transaction>)
    requires Enabled(e, n, a, chain)
    ensures a.BeginNew? ==> HasFundingOutput(a.fundTx)
  {
  }

  /** With ids that the node does not hold yet, whatever else its peers do: in every step each stored
      channel stays as it is or moves one step along Pending, ReadyToFund, Live, Closed or along
      WaitingForFund, Funded. */
  lemma FreshIdsMoveForward(e: Env, acts: seq<SoloAction>)
    requires Run(e, acts).Some? && FreshIds(e, acts)
    ensures AlwaysAdvances(e, acts)
  {
    FreshIsTidy(e, acts);
    ForwardExactlyWhen(e, acts);
  }

  /** A funding watcher that still waits holds exactly what the store holds, which is ReadyToFund or
      WaitingForFund, and no two of the node's watchers wait for the same channel. */
  lemma OneWatcherPerChannel(e: Env, acts: seq<SoloAction>, i: nat, j: nat)
    requires Run(e, acts).Some? && AlwaysTidy(e, acts)
    requires var ws := Run(e, acts).value.node.watchers; i < |ws| && j < |ws| && ws[i].live && ws[j].live
    ensures var n := Run(e, acts).value.node;
            var c := n.watchers[i].channel;
            && c.id in n.db && n.db[c.id] == c && (c.state.ReadyToFund? || c.state.WaitingForFund?)
            && (c.id == n.watchers[j].channel.id ==> i == j)
  {
    hide Run, ClosesHold, JobHolds;
    TidyIsOrderly(e, acts);
  }

  /** At most one force close of a channel ever succeeds, and then the channel is Closed. */
  lemma ClosedOnce(e: Env, acts: seq<SoloAction>)
    requires Run(e, acts).Some? && AlwaysTidy(e, acts)
    ensures var n := Run(e, acts).value.node;
            NoDup(n.closes) && forall id :: id in n.closes ==> id in n.db && n.db[id].state.Closed?
  {
    hide Run, WatchersHold, OneWatcherEach, JobHolds;
    TidyIsOrderly(e, acts);
  }

  // ---------------------------------------------------------------------------------------
  // Nobody is stranded
  // ---------------------------------------------------------------------------------------

  /** Some watcher still waits for this very channel. */
  ghost predicate Attended(watchers: seq<Watcher>, c: Channel) {
    exists i :: 0 <= i < |watchers| && watchers[i] == Watcher(c, true)
  }

  /** Which channels are looked at: those that this node opened, or those it accepted. */
  predicate Awaiting(c: Channel, own: bool) {
    if own then c.state.ReadyToFund? else c.state.WaitingForFund?
  }

  /** Every stored channel that waits for its funding has a watcher. */
  ghost predicate NoneStranded(n: Node, own: bool) {
    forall id :: id in n.db && Awaiting(n.db[id], own) ==> Attended(n.watchers, n.db[id])
  }

  lemma InsertStrandsNone(e: Env, n: Node, chain: set<Transaction>, own: bool)
    requires Enabled(e, n, Insert, chain) && NoneStranded(n, own)
    ensures NoneStranded(Next(e, n, Insert, chain), own)
  {
    hide FundsOk;
    var n', c := Next(e, n, Insert, chain), n.job.channel;
    forall id | id in n'.db && Awaiting(n'.db[id], own)
      ensures Attended(n'.watchers, n'.db[id])
    {
      if id == c.id {
        assert n'.watchers[|n.watchers|] == Watcher(c, true);
      } else {
        var i :| 0 <= i < |n.watchers| && n.watchers[i] == Watcher(n.db[id], true);
        assert n'.watchers[i] == n.watchers[i];
      }
    }
  }

  lemma FireStrandsNone(e: Env, n: Node, i: nat, tx: Transaction, chain: set<Transaction>, own: bool)
    requires Enabled(e, n, Fire(i, tx), chain) && NoneStranded(n, own)
    requires forall id :: id in n.db ==> n.db[id].id == id
    requires Awaiting(n.watchers[i].channel, own) ==> Sight(e, n.watchers[i].channel, tx).Store?
    ensures NoneStranded(Next(e, n, Fire(i, tx), chain), own)
  {
    hide FundsOk, Matches, FundingDescriptor;
    var n', c := Next(e, n, Fire(i, tx), chain), n.watchers[i].channel;
    forall id | id in n'.db && Awaiting(n'.db[id], own)
      ensures Attended(n'.watchers, n'.db[id])
    {
      var j :| 0 <= j < |n.watchers| && n.watchers[j] == Watcher(n.db[id], true);
      assert n'.watchers[j] == n.watchers[j];
    }
  }

  lemma StrandsNone(e: Env, n: Node, a: Action, chain: set<Transaction>, own: bool)
    requires Enabled(e, n, a, chain) && NoneStranded(n, own)
    requires forall id :: id in n.db ==> n.db[id].id == id
    requires a.Fire? && Awaiting(n.watchers[a.watcher].channel, own) ==> Sight(e, n.watchers[a.watcher].channel, a.tx).Store?
    ensures NoneStranded(Next(e, n, a, chain), own)
  {
    match a {
      case Insert => InsertStrandsNone(e, n, chain, own);
      case Fire(i, tx) => FireStrandsNone(e, n, i, tx, chain, own);
      case _ => StoresUntouched(e, n, a, chain);
    }
  }

  lemma StoresUntouched(e: Env, n: Node, a: Action, chain: set<Transaction>)
    requires Enabled(e, n, a, chain) && !a.Insert? && !a.Fire?
    ensures Next(e, n, a, chain).db == n.db && Next(e, n, a, chain).watchers == n.watchers
  {
    hide FundsOk, Confirm, CloseLive, AckFor, OfferFor, PendingChannel, AcceptedChannel, UsableToClose, FunderContract;
  }

  /** In every run of a node, whatever its peers send and whatever ids they use, each stored
      ReadyToFund channel has a watcher that still waits for it. */
  lemma {:induction false} OwnChannelsAreWatched(e: Env, acts: seq<SoloAction>)
    requires e.Lawful() && Run(e, acts).Some?
    ensures NoneStranded(Run(e, acts).value.node, true)
  {
    hide NoneStranded, Next, Enabled, AllGood;
    if acts == [] {
      NothingToStrand(true);
    } else {
      var front, last := acts[..|acts| - 1], acts[|acts| - 1];
      OwnChannelsAreWatched(e, front);
      ChannelsStayGood(e, front);
      var w := Run(e, front).value;
      if last.Own? {
        OwnSightings(e, w.node, last.a, w.chain);
        StrandsNone(e, w.node, last.a, w.chain, true);
      }
    }
  }

  lemma NothingToStrand(own: bool)
    ensures NoneStranded(FRESH_NODE, own)
  {
  }

  lemma OwnSightings(e: Env, n: Node, a: Action, chain: set<Transaction>)
    requires e.Lawful() && AllGood(e, n, chain) && Enabled(e, n, a, chain)
    ensures forall id :: id in n.db ==> n.db[id].id == id
    ensures a.Fire? && Awaiting(n.watchers[a.watcher].channel, true) ==> Sight(e, n.watchers[a.watcher].channel, a.tx).Store?
  {
    hide Good, Sight, Matches;
    if a.Fire? {
      SightingIsGood(e, chain, n.watchers[a.watcher].channel, a.tx);
    }
  }

  /** When no watcher of the node can fire, its ReadyToFund channels are those whose funding
      transaction is not on the chain: no confirmed channel is forgotten. */
  lemma ReadyMeansUnfunded(e: Env, acts: seq<SoloAction>, id: ChannelId, tx: Transaction)
    requires e.Lawful() && Run(e, acts).Some?
    requires var w := Run(e, acts).value; forall i, t :: !Enabled(e, w.node, Fire(i, t), w.chain)
    requires var n := Run(e, acts).value.node; id in n.db && n.db[id].state.ReadyToFund?
    ensures tx in Run(e, acts).value.chain ==> e.h.txid(tx) != id.txid
  {
    hide Run;
    var w := Run(e, acts).value;
    OwnChannelsAreWatched(e, acts);
    ChannelsStayGood(e, acts);
    Unfireable(e, w.node, w.chain, w.node.db[id], tx);
  }

  lemma Unfireable(e: Env, n: Node, chain: set<Transaction>, c: Channel, tx: Transaction)
    requires FundsOk(n) && Attended(n.watchers, c) && forall i, t :: !Enabled(e, n, Fire(i, t), chain)
    ensures tx in chain ==> e.h.txid(tx) != c.id.txid
  {
    var i :| 0 <= i < |n.watchers| && n.watchers[i] == Watcher(c, true);
    assert !Enabled(e, n, Fire(i, tx), chain);
  }
}
