# A model of the peer event handler and the two-party channel protocol

The repository is a payment channel node. Two parts of it hold its difficult behaviour, and this
project models both in Dafny and proves what they keep.

**The peer event handler** (`src/p2p/event.rs`). One object owns a table from peer id to connection
state. Callers, the listener, dial attempts, socket readers and socket writers run beside it and
reach it only through its event channel. `EventHandler` in `p2p_handler.dfy` is that object, with
the same mutable table and the same loops, each method proved equal to a function on the handler's
state (`Handle`, `WriteAll`, ...). `PeerSystem` puts the handler among everything that runs
beside it: an unbounded number of peers, requests, dial attempts and connections, each atomic step
of each of them an action, and `Run` the state after any enabled sequence of actions. Requests are
numbered and carry the peer they were made for, dial attempts and connections are numbered too, and
the state keeps logs of what was delivered, notified and dropped. `PeerOrder` and `PeerOutcomes`
define what those logs and queues must be from the history of handled events alone.

**The channel protocol** (`src/channel/`, with `src/funder.rs`, `src/seed.rs` and the message loop of
`src/server_bundle.rs`). `channel.dfy` and `crypto.dfy` hold the key derivations, the state
transaction, its sighash and the decisions of each manager method; `ChannelManager` and `InMemory`
are the mutable objects, proved against them. Safety is then proved at two levels:

- `Nodes`: one node among arbitrary peers. The manager's methods are split where they await the
  store, and funding watchers write the store in between, without the manager's lock. Nothing is
  assumed of incoming messages or of channel ids. `Refinement` shows that the split steps amount to
  the manager's methods when no watcher comes between.
- `Network`: any number of honest nodes exchanging messages over a network that may lose or reorder
  them, with fresh channel ids. `Stories` is the invariant of the protocol without cryptography
  (who is at work on which channel, where each message is, who still watches); `Agreement` adds the
  signatures and draws the conclusions. `Projection` shows that each node of a network runs as a
  node alone does, with fresh ids, so that what `Progress` proves of such nodes holds there too.
  `Settlement` follows each channel to its end.

The cryptographic libraries enter as a record of functions, `Crypto.Suite`, with the laws the
protocol rests on (commuting exponents, even-y normal form, honest signatures verify, a verified
encrypted signature decrypts to a verifying one). Nothing rests on an unproved axiom: `Exponent`
builds a suite from the equations of ECDSA and of its one-time-encrypted form over any prime order
and proves every law of it, `Bitcoin.LawfulHashesExist` gives lawful hashes, and
`Existence.ScenesExist` meets all assumptions of the end-to-end run at once, with two concrete nodes
and for every value. A nonce is a parameter, and is called usable when no component of the
signature comes out zero. The chain's hashes are a record too: txid leaves out witnesses and does
not collide (BIP141, section "Transaction ID"), the sighash is an opaque function of the preimage of
BIP143, section "Specification". `Bitcoin.Spends` states the chain's own rule for a
two-key witness script, independently of how the closing transaction is made, and `Bitcoin.Takes`
adds that the transaction is final at whatever height, that there is an output and that the outputs
do not exceed the input.

## What turned out false

- `src/p2p/event.rs:63` expects that the notifier of a send cannot be dropped. It can: when a peer
  connects to us while we dial it, or twice, a stale `Disconnected` event removes a `Connecting`
  entry with all its messages. `PeerOverlap.OverlapDropsASend` is such a run, in which moreover the
  peer is dialled twice at once. `PeerOutcomes.DroppedExactlyWhen` says off the history of handled
  events alone when a run drops anything and what, and `PeerOutcomes.UnansweredExactlyWhen` when a
  send stays unanswered. The other half of the claim, that a peer's entry, dial attempts and readers
  correspond, so that nobody is dialled twice at once, holds after every step exactly when every
  accepted connection is handled while its peer has no entry (`PeerOverlap.ExactExactlyWhen`); then
  nothing is dropped either (`PeerOverlap.ExactWithoutOverlap`). When the send is an acknowledgement,
  the failed `expect` panics inside the `join!` of `src/server_bundle.rs:100-106`, and the loops
  joined there stop with it.
- With overlap a send can also be told the failure of a dial attempt that is not its own, while its
  own attempt still runs: `PeerOutcomes.OverlapBlamesAnotherDial`. The error is always that of some
  failed attempt to the same peer, handled while the send waited (`PeerOutcomes.Notification`).
  `PeerOutcomes.OwnFailuresExactlyWhen` says exactly in which runs it is always that of its own
  attempt; runs without overlap are among them (`PeerOutcomes.OwnDialWithoutOverlap`).
- `src/channel/rs_ecdsa.rs:188` subtracts the fee of 1000 without a check. With a first balance
  between 1 and 999 the output wraps around (in a release build), and with nothing to pay out there
  is no output; no chain takes either closing transaction. `ForceClose.ValueConserved`,
  `ForceClose.CloseSpends` and `Nodes.ForceCloseIsValid` state exactly when the value is conserved
  and the transaction taken.
- A new channel is stored whatever the store holds under its id. A channel that was closed can so
  come back as `Live` and be closed again (`Freshness.ClosedTwiceWithoutFreshIds`, for every node
  and funding transaction that the funder hands out twice before it is broadcast), and an offer
  under the id of a `Live` channel replaces it (`Freshness.LiveReplacedWithoutFreshIds`).
  `Progress.ForwardExactlyWhen` and `Progress.OpeningExactlyWhen` give the exact condition, for one
  node among arbitrary peers. That an id is not held is enough; it is not quite necessary, because
  repeating the very same opening is harmless while nobody waits for it. That signatures stay good,
  that force close is valid and that no assertion fails needs no freshness
  (`Nodes.ChannelsStayGood`).

## Model

| member | source | states |
|---|---|---|
| PeerHandler.EventHandler.constructor | src/p2p/event.rs:121-126 | a new handler knows no peer and has done nothing |
| PeerHandler.EventHandler.Serve | src/p2p/event.rs:127-131 | the loop handles all queued events, in order |
| PeerSystem.ServingIsHandling | src/p2p/event.rs:127-131 | from any state, n handling steps of the system reach exactly the core that the loop makes of the first n queued events, which leave the queue and join the history in order |
| PeerSystem.ServesTheQueue | src/p2p/event.rs:127-131 | there are always as many such steps as queued events |
| PeerHandler.EventHandler.HandleEvent | src/p2p/event.rs:136-206 | each of the six events changes the table and everything else as `Handle` says, including the notifier dropped for a connected peer, the removal before the look at a failed connection, and the disconnect that removes any entry |
| PeerHandler.EventHandler.DialIfVacant | src/p2p/event.rs:208-229 | dials and adds an empty `Connecting` entry exactly when there is none |
| PeerHandler.EventHandler.UnboundedSend | src/p2p/event.rs:156-159 | appends to the connection's queue, or panics when its writer has ended |
| PeerHandler.EventHandler.FailConnection | src/p2p/event.rs:188-203 | removes the entry and tells everyone in it the error, waiting notifiers first |
| PeerHandler.EventHandler.DrainErr | src/p2p/event.rs:193-201 | every notifier of a list is told the reason, in order |
| PeerHandler.TellInOrder | src/p2p/event.rs:193-201 | telling two lists in turn is telling their concatenation, so notices come in list order |
| PeerHandler.EventHandler.SpawnOutgoingMessages | src/p2p/event.rs:231-269 | those waiting are told Ok, pending messages become the new queue in order, the entry is replaced |
| PeerHandler.EventHandler.SpawnIncomingMessages | src/p2p/event.rs:284-284 | the new connection gets a reader on its stream, and nothing else changes; what the reader does is `ReadLoop` and `ReaderSendsEverything` |
| PeerHandler.EventHandler.WriteLoop | src/p2p/event.rs:248-265 | the writer loop is the iteration of single writes, continuing after sink errors |
| PeerHandler.WriterTellsEverybody | src/p2p/event.rs:248-265 | the loop tells, in queue order, each notifier the sink's answer to its own message, tells nobody else, and changes nothing but its connection's queue and log |
| PeerSystem.WritingIsTheLoop | src/p2p/event.rs:248-265 | the system's writing steps that empty a queue lead exactly to what the loop makes of it |
| PeerSystem.WritesTheQueue | src/p2p/event.rs:248-265 | while the writer runs such steps can always empty the queue, whatever the sink answers |
| PeerHandler.WriterTriesEverything | src/p2p/event.rs:248-265 | for any answers of the sink, each queued message is tried once, in order, recorded with the answer to that very message; other connections are untouched |
| PeerHandler.ReadLoop | src/p2p/event.rs:273-282 | a reader emits each message of its stream in order and then one disconnect |
| PeerSystem.ReaderSendsEverything | src/p2p/event.rs:273-282 | the reader's steps in the system put exactly those events on the event channel and change nothing else |
| PeerSystem.WritersOutliveSenders | src/p2p/event.rs:156-159 | in every reachable state each `Connected` entry's writer still runs, so enqueueing never fails |
| PeerConservation.Conservation | src/p2p/event.rs:136-269 | after every run each request ever made is in exactly one of: unhandled, waiting or pending at its own peer, queued or tried on one connection of its own peer, greeted, failed with a dial, dropped by a disconnect, ignored; once there; sends and connect requests only where their kind can be |
| PeerConservation.TriedAtMostOnce | src/p2p/event.rs:248-265 | no message is given to a sink twice, on one connection or on two |
| PeerConservation.NotifiedOnce | src/p2p/event.rs:193-265 | notifiers fire at most once, and exactly when their request has ended |
| PeerOutcomes.LogsAlways | src/p2p/event.rs:173-203 | what is dropped, failed and greeted is exactly what the history of handled events says, without the table |
| PeerOutcomes.Notification | src/p2p/event.rs:136-265 | a notifier fires with an outcome if and only if a sink of a connection to its own peer gave that answer to its message, or a connection to its peer was opened while its connect request waited, or a failed dial attempt to its peer was handled with that reason while it waited; and never twice |
| PeerOutcomes.OwnDialOutstanding | src/p2p/event.rs:208-229 | whatever overlaps, each `Connecting` entry's own dial attempt, the one started for its requests, runs or has its report queued |
| PeerOutcomes.DialsGoWhereAsked | src/p2p/event.rs:208-229 | each dial attempt is to the peer, address included, that the request which started it names |
| PeerOutcomes.DialForExactly | src/p2p/event.rs:208-229 | attempt d is the one started for those who wait for a peer if and only if the history started it for that peer and has ended no entry of the peer since |
| PeerOutcomes.OwnFailuresExactlyWhen | src/p2p/event.rs:188-203 | in a run nobody is told the failure of an attempt that is not its own if and only if every failure handled while requests wait is of an attempt started for that peer, with nothing that ended an entry of the peer between its start and its report |
| PeerOutcomes.OwnDialWithoutOverlap | src/p2p/event.rs:188-203 | without overlap every report of a dial attempt that is handled is of the attempt that the waiting requests started, so nobody is told the outcome of another attempt; `OwnFailuresExactlyWhen` has the exact condition |
| PeerOutcomes.OverlapBlamesAnotherDial | src/p2p/event.rs:188-203 | a run with overlap in which a send is told the failure of an earlier attempt while its own still runs |
| PeerOutcomes.DroppedExactlyWhen | src/p2p/event.rs:173-179 | a run drops nothing if and only if it handles no disconnect for a peer without an open connection for which a send or a connect request with a notifier was handled since its last entry ended; a request is dropped exactly when it waits at such a disconnect |
| PeerOutcomes.UnansweredExactlyWhen | src/p2p/event.rs:48-65 | at rest a send has no outcome if and only if it waited at such a disconnect: the exact condition under which the `expect` fails |
| PeerOrder.FirstInFirstOut | src/p2p/event.rs:151-168 | what a connection's writer has tried followed by its queue is exactly the sends that the event history assigns to that connection, in handling order |
| PeerOrder.FedIsStretch | src/p2p/event.rs:151-168 | those sends are one stretch of the history: all sends of the peer since its previous entry ended (or since opening, when a connection was replaced) up to the event that ended this entry |
| PeerOrder.IncomingInOrder | src/p2p/event.rs:170-172 | messages passed up from a connection, then those queued as events, then those unread are its stream, and each names its peer |
| PeerOrder.ConnectionsKeepTheirPeers | src/p2p/event.rs:180-187 | each connection's peer, address included, is that of the event that opened it |
| PeerProgress.NoOrphanedWaiters | src/p2p/event.rs:208-229 | whatever overlaps, each `Connecting` entry has a dial attempt for its peer that runs or whose report is still queued |
| PeerProgress.InternalStepWorks | src/p2p/event.rs:127-131 | every internal step decreases a lexicographic measure of six components |
| PeerProgress.Terminates | src/p2p/event.rs:127-131 | no infinite sequence of internal steps exists, from any state |
| PeerProgress.AtRest | src/p2p/event.rs:136-269 | when only the environment can move: no entry is `Connecting`, queues are empty, every request has ended, was dropped or was an ignored connect, and a send has ended exactly when no disconnect dropped it |
| PeerProgress.EveryQueueIsTried | src/p2p/event.rs:248-265 | a queue is tried to its last message even after its entry was removed or replaced and after sink errors |
| PeerOverlap.ExactWithoutOverlap | src/p2p/event.rs:173-203 | without overlap no entry, `Connecting`, `Connected` correspond exactly to no dial and no reader, one dial and no reader, no dial and the connection's reader; no request is dropped |
| PeerOverlap.ExactExactlyWhen | src/p2p/event.rs:173-203 | that correspondence holds after every step of a run if and only if no accepted connection is handled while its peer has an entry |
| PeerOverlap.EverySendIsAnswered | src/p2p/event.rs:49-65 | without overlap every send has its outcome, and its notifier the notice, once only the environment can move |
| PeerLink.DeliveryIsASend | src/p2p/event.rs:248-283 | between two handlers, every message passed up from a joined connection is that of a send which the other side's sink was given on the other end |
| PeerLink.DeliveredAtMostOnce | src/p2p/event.rs:248-283 | no send is passed up twice, on one connection or on two, and one connection's messages come in order |
| PeerOverlap.OverlapDropsASend | src/p2p/event.rs:48-65 | a run in which a send and its notifier are dropped and the peer is dialled twice at once |
| Crypto.FromScalarMul | src/seed.rs:45-55 | the public point is even-y and belongs to the secret, which is negated in place only if needed |
| Crypto.KeyPairFromScalar | src/seed.rs:38-55 | the key pair is even-y and its point is recovered from the node id |
| Crypto.SharedRandomizer | src/channel/rs_ecdsa.rs:523-539 | both parties derive the same randomizer from their own key pair and the other's id |
| Crypto.SharedKeys | src/channel/rs_ecdsa.rs:107-172 | both derive the same funding and balance keys, and one's local key is the other's remote key |
| Crypto.KeysComeFromStreams | src/channel/rs_ecdsa.rs:541-561 | funding keys are the two node keys, party one's first, each shifted by its own scalar of the funding stream, balance keys likewise of the balance stream, and the funding secret is the node's shifted by its own scalar of the funding stream |
| Crypto.PublishingKeyIsShifted | src/channel/rs_ecdsa.rs:287-303 | the publishing key is the node key shifted by 42 times the generator, and the publishing secret opens it |
| Crypto.FundingSecretOpens | src/channel/rs_ecdsa.rs:138-151 | the funding secret times the generator is the key called local in force close, for either party |
| Crypto.BalanceKeyOpens | src/channel/rs_ecdsa.rs:153-172 | each party's balance key is its node key shifted by its own scalar, so its secret opens it |
| Exponent.HonestSignature | src/channel/rs_ecdsa.rs:440-443 | an ECDSA signature made with a usable nonce verifies, in low-s form too |
| Exponent.HonestEncryptedSignature | src/channel/rs_ecdsa.rs:254-267 | an encrypted signature made with a usable nonce verifies |
| Exponent.DecryptedVerifies | src/channel/rs_ecdsa.rs:412-414 | decrypting any verified encrypted signature gives a signature both verifiers accept |
| Exponent.VerifiesExactly | src/channel/rs_ecdsa.rs:447-458 | a signature verifies if and only if it solves the equation of ECDSA for some nonce point with its `r` |
| Exponent.ExponentModelIsLawful | src/channel/rs_ecdsa.rs:523-561 | the model of points as exponents modulo any prime order meets every law asked of the primitives |
| Bitcoin.FundingMatches | src/funder.rs:76-86 | a transaction matches if and only if it has the channel's txid, that is, equals the funding transaction up to witnesses |
| Bitcoin.FundedOutput | src/funder.rs:45-70 | the channel id has the extracted transaction's id and points to the first output to the descriptor, which is the one the funder was asked for, and `output_value` is its value |
| Bitcoin.ExtractKeepsId | src/funder.rs:62-65 | extracting the transaction keeps what its id covers if and only if it changes no input script, so with native segwit inputs the id is known before anything is signed |
| Bitcoin.PreimageFixes | src/channel/rs_ecdsa.rs:233-246 | equal signed preimages mean the same input, script, value and transaction up to witnesses and input scripts, and all inputs and outputs are covered |
| Bitcoin.Position | src/funder.rs:47-61 | the first output that pays to the script, or none |
| Bitcoin.SameOutputs | src/funder.rs:62-65 | equal txids mean equal outputs |
| Channels.InMemory.constructor | src/channel/channel_db.rs:25-28 | the store starts empty |
| Channels.InMemory.InsertChannel | src/channel/channel_db.rs:31-33 | the channel replaces whatever its id held and nothing else changes |
| Channels.InMemory.GetChannel | src/channel/channel_db.rs:35-37 | a channel is found exactly when its id is stored, and then it is the stored one |
| Channels.InMemory.GetChannelForPeer | src/channel/mod.rs:50-58 | the stored channel exactly if its peer is the one named |
| Channels.InMemory.ListChannels | src/channel/channel_db.rs:39-41 | every stored channel, as many as there are ids, and nothing else |
| Manager.ChannelManager.constructor | src/channel/rs_ecdsa.rs:55-71 | a new manager watches nothing |
| Manager.ChannelManager.NewChannel | src/channel/rs_ecdsa.rs:72-105 | stores a Pending channel under the funding outpoint and offers its id, value and the publishing key |
| Manager.ChannelManager.RecvNewChannel | src/channel/rs_ecdsa.rs:248-285 | stores and watches a WaitingForFund channel and answers with the encrypted commit signature |
| Manager.ChannelManager.RecvNewChannelAck | src/channel/rs_ecdsa.rs:305-353 | the three failures leave everything as it was; otherwise ReadyToFund with the funding output's value is stored and watched |
| Channels.ConfirmsExactly | src/channel/rs_ecdsa.rs:310-352 | an acknowledgement is accepted exactly when its sender's channel is stored, Pending and the signature good for its funding output's value; each of the three failures has its own error |
| Manager.ChannelManager.WaitForFunding | src/channel/rs_ecdsa.rs:355-398 | spawns one watcher with a copy of the channel, in the two states it is meant for |
| Manager.ChannelManager.Watch | src/channel/rs_ecdsa.rs:363-395 | what a watcher does with the transaction it waited for: store Live or Funded, nothing, or panic |
| Manager.ChannelManager.ForceCloseChannel | src/channel/rs_ecdsa.rs:401-485 | the error cases change nothing; otherwise both signatures are checked, inserted, and Closed with the extracted transaction is stored |
| Manager.ChannelManager.HandleMessage | src/server_bundle.rs:59-96 | one message is dispatched under the lock and answered |
| Manager.ChannelManager.ServeMessages | src/server_bundle.rs:59-98 | the loop serves all queued messages in order |
| Refinement.MessageInSteps | src/server_bundle.rs:59-98 | taking a message, storing and answering as separate steps stores, watches and answers what the handler does |
| Refinement.QueueInSteps | src/server_bundle.rs:59-98 | a queue served message by message in steps, from an idle node, leaves the loop's books, and the acknowledgements sent are exactly the loop's, in order |
| Refinement.QueueIsServed | src/server_bundle.rs:59-98 | every queue can be served so |
| Refinement.NewInSteps | src/channel/rs_ecdsa.rs:72-105 | opening a channel in steps stores and offers what the method does |
| Refinement.WatchInSteps | src/channel/rs_ecdsa.rs:363-395 | a watcher that fires between the manager's steps writes or panics as its body does and leaves the manager's work alone |
| Refinement.CloseInSteps | src/channel/rs_ecdsa.rs:401-485 | force close in steps leaves what the method leaves, and fails where it fails |
| ForceClose.BothSignaturesAccepted | src/channel/rs_ecdsa.rs:440-465 | both assertions of force close hold for both signatures |
| ForceClose.CloseSpends | src/channel/rs_ecdsa.rs:401-485 | the descriptor is satisfied and the closing transaction spends the funding outpoint by the chain's rule for scripts and signatures; it has version 1, no lock time and the last sequence number; the chain takes it if and only if the balances can be paid out |
| ForceClose.WithinInput | src/channel/rs_ecdsa.rs:174-212 | a state transaction has outputs and pays out at most its input if and only if some balance is positive, the first is 0 or covers the fee, and they fit in 64 bits |
| ForceClose.ValueConserved | src/channel/rs_ecdsa.rs:174-212 | the outputs sum to the funding value less the fee if and only if the first balance is 0 or at least 1000 and the balances fit in 64 bits |
| ForceClose.EachIsPaidItsBalance | src/channel/rs_ecdsa.rs:174-212 | what a commit state owes a party is paid to a key that the party's own secret opens: party one's balance less 1000 (wrapping below it) first, party two's last, and nothing else |
| ForceClose.FundingOutputKeys | src/channel/rs_ecdsa.rs:115-136 | the funding output pays to the script both funding keys sign for, party one's first, each its node key shifted by its scalar of the funding stream |
| ForceClose.BothAgree | src/channel/rs_ecdsa.rs:174-246 | both parties compute the same funding output, state transaction and sighash for every commit state |
| ForceClose.HonestAckIsGood | src/channel/rs_ecdsa.rs:248-285 | an honest acknowledgement verifies for the party that made the offer |
| Nodes.SightingIsGood | src/channel/rs_ecdsa.rs:363-395 | a watcher of a good channel never reaches `unreachable!` and stores a good channel; for ReadyToFund it always stores |
| Nodes.FundedExactlyWhen | src/channel/rs_ecdsa.rs:378-394 | the accepting side's watcher stores Funded if and only if the output at the channel's position has its value and pays the joint descriptor, and otherwise stores nothing |
| Nodes.GoodStep | src/channel/rs_ecdsa.rs:305-398 | every step of a node keeps every stored, captured and about-to-be-stored channel good |
| Nodes.ChannelsStayGood | src/channel/rs_ecdsa.rs:305-398 | in every reachable state, with arbitrary peers and ids, commit signatures verify, Live indices are 0, the initiator flag follows the state, Funded pays, Closed spends, and nothing panicked |
| Nodes.ForceCloseIsValid | src/channel/rs_ecdsa.rs:401-485 | from any reachable Live channel both assertions hold, the descriptor is satisfied, and the close spends the output as it is on the chain by script and signatures, with version 1, no lock time and the last sequence number; the chain takes it at any height, and it pays out that value less 1000, exactly when the value is at least 1000 |
| Nodes.OnChainPays | src/channel/rs_ecdsa.rs:363-395 | the output a channel points to is the same in every transaction with its txid |
| Agreement.TwoPartyAgreement | src/channel/rs_ecdsa.rs:72-353 | once the opener holds ReadyToFund, Live or Closed, the other node holds WaitingForFund or Funded under the same id, with the same value, opposite role and the same funding output; commit gives all to party one |
| Agreement.AcksAreNeverRejected | src/channel/rs_ecdsa.rs:305-353 | every acknowledgement in flight will be accepted by its receiver |
| Progress.ForwardExactlyWhen | src/channel/rs_ecdsa.rs:72-485 | for one node among arbitrary peers: in every step stored channels stay or move one step along Pending, ReadyToFund, Live, Closed or WaitingForFund, Funded, with at most one watcher each, if and only if every new channel finds room when stored |
| Progress.OpeningExactlyWhen | src/channel/rs_ecdsa.rs:83-93 | taking up and storing a new channel keeps that order if and only if its id is not held, or is held by the very same new channel with no watcher waiting |
| Progress.FreshIdsMoveForward | src/channel/rs_ecdsa.rs:72-485 | so it is kept whenever every opening, own or offered, names an id the node does not hold, whatever watchers interleave |
| Progress.OrderlyStep | src/channel/rs_ecdsa.rs:320-398 | the step behind it: each action keeps the invariant and moves forward, unless it stores a new channel without room, which breaks the order |
| Progress.OneWatcherPerChannel | src/channel/rs_ecdsa.rs:355-398 | among arbitrary peers, in such runs, a waiting watcher holds what the store holds, in one of the two waiting states, and no two wait for one channel |
| Progress.ClosedOnce | src/channel/rs_ecdsa.rs:476-483 | among arbitrary peers, in such runs, at most one force close per id succeeds, and the channel is then Closed |
| Progress.OwnChannelsAreWatched | src/channel/rs_ecdsa.rs:336-372 | in every run, with arbitrary peers and ids, each stored ReadyToFund channel has a watcher that still waits for it |
| Progress.ReadyMeansUnfunded | src/channel/rs_ecdsa.rs:363-372 | when no watcher can fire, a channel is ReadyToFund only if its transaction is not on the chain |
| Projection.RunsAlone | src/server_bundle.rs:59-98 | every node of a network of honest nodes is where a run of its own leads, and that run opens channels under fresh ids only |
| Projection.ChannelsOnlyMoveForward | src/channel/rs_ecdsa.rs:320-398 | so in the network each step moves each stored channel forward or leaves it |
| Projection.OneWatcherAndOneClose | src/channel/rs_ecdsa.rs:355-483 | and watchers hold what is stored, one per channel, and channels close once |
| Agreement.WatchersAlwaysMatch | src/channel/rs_ecdsa.rs:363-395 | whatever transaction of the id appears, the opener's watcher stores Live and the other's stores Funded |
| Agreement.FundedMeansPaid | src/channel/rs_ecdsa.rs:378-394 | a Funded channel's transaction is on the chain and pays exactly its value to the joint descriptor both nodes derive; the opener holds the channel at that value |
| Agreement.SoundAlways | src/channel/rs_ecdsa.rs:72-485 | every reachable state of the network has a story for every channel id that accounts for stores, messages, watchers and signatures |
| Settlement.AcceptedChannelsAreWatched | src/channel/rs_ecdsa.rs:269-279 | in the network each stored WaitingForFund channel has a watcher that still waits for it |
| Settlement.AccountedAlways | src/channel/rs_ecdsa.rs:72-353 | after every run each channel ever opened is at work or on its way, or confirmed, or one of its messages was lost, and a lost one is neither of the others |
| Settlement.LostLeavesPending | src/channel/rs_ecdsa.rs:83-93 | when a message about a channel was lost its opener holds it as Pending for ever |
| Settlement.SettledAtRest | src/channel/rs_ecdsa.rs:72-398 | when nothing is left to do, a channel is confirmed if and only if none of its messages was lost, and then opener and acceptor have seen the funding transaction exactly if the chain has it |
| Freshness.ClosedTwiceWithoutFreshIds | src/channel/rs_ecdsa.rs:365-375 | a run without fresh ids in which one channel is closed twice |
| Freshness.LiveReplacedWithoutFreshIds | src/channel/rs_ecdsa.rs:269-279 | a run in which an offer under the id of a Live channel replaces it by WaitingForFund, after which no force close of it succeeds |
| EndToEnd.ChannelsCanBeOpenedAndClosed | tests/end_to_end.rs:187-265 | for every two nodes, every value, a funder that keeps its contract and usable nonces there is a run from the offer to the force close, ending with the other node Funded and a closing transaction that spends the funding output by script and signatures; the chain takes it exactly when the value is at least 1000 |

## Left out

- TCP accept and connect, the handshake, framing and JSON: a connection is a sink that answers Ok or an error for each message and a finite stream of messages; a dial attempt for a peer yields a connection to that peer or an error.
- The capacity of 10 of the event channel: the model's channel is unbounded, which allows every interleaving the bounded one does.
- Receivers of notifiers that were dropped by their callers, and log output: telling a notifier is a log entry.
- HTTP routes, configuration and the binary: only the fact that routes and the message loop hold the manager's lock is used; `NewChannel` holds it until its message was sent or failed (`src/http/routes.rs:117-154`), as the message loop does. A third outcome, that the notifier is dropped and the sender panics, has no step of its own: in a route it lets go of the lock as a failure does; in the message loop it stops the node, and what the node did until then is a run of the model.
- The internals of bdk, miniscript, PSBT encoding, DER, secp256k1, HMAC, SHA and ChaCha20: their contracts are the laws of `Suite` and `Hashes`; a two-key policy is one witness script whose satisfaction needs both signatures, and a single-key descriptor pays to that key.
- The seed's HMAC and the conversion of its bytes to a scalar: `KeyPairFromScalar` starts from the scalar.
- Zero scalars and points at infinity, which the source calls computationally unreachable: no panic is modelled for them.
- The discrete-logarithm proof inside an encrypted signature: `Exponent` states the equality of logarithms it proves; that nobody else can make such signatures is not a property of this model.
- Coin selection and errors of the funder: `FunderContract` says that some output pays to the descriptor and that every output which does carries the value; a funder that fails leaves everything as it was. Inputs are native segwit, so that signing changes witnesses only.
- The monitor's polling (`src/monitor.rs`): the chain is a growing set of transactions, and a watcher may see any of them that has the txid it waits for.
- Conflicts between transactions on the chain: any transaction may appear, which is more than a chain allows. Relay policy (dust limits, minimum fees) is no part of `Takes`.
- Debug builds, where the unchecked subtraction and addition panic: 64-bit arithmetic wraps as in a release build.
- Revocation, fee rate and to_self_delay: the revocation secret is the constant 42, and the other two fields are carried but never used.
- Malicious peers in `Network`: agreement is stated for honest nodes that do not open channels with themselves; `Nodes` makes no assumption about peers.
- The composition of the two systems into one: `Network` loses and reorders messages but does not duplicate them. `PeerLink` proves the latter of two handlers whose connections are joined end to end and pass on a part of what was sent, in order; that sockets do so is an assumption.
- The short codecs `src/hex.rs` and the parsing of `Peer`.
- Manager.ChannelManager.Watch: runs with no other method in between; `Nodes` has the interleavings.
