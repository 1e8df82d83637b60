# A verified model of the software bus

This project models the software bus, a tree of nodes over TCP with clients as its leaves, and proves what
its layers promise. `dafny verify dfyconfig.toml` checks everything.

| part | modules | what is modelled |
|---|---|---|
| shared | `Graphs`, `Links`, `Sequences`, `Results` | multigraphs, walks, forests and components; connections and their two ends |
| cycle check | `CycleCheck`, `CycleSafety`, `CycleRaces`, `PendingAnswer`, `CheckLifecycle`, `CheckNames`, `CheckOutcomes`, `CheckAnswers`, `CheckReplies`, `CheckCompleteness`, `NodeChecker` | many nodes checking new links at once, every handler one event |
| routing | `Subjects`, `Routing`, `RoutingInvariant`, `RoutingRuns`, `LostTags`, `StaleAccount`, `FanoutOrder`, `Arrivals`, `PublishFlow`, `Trees`, `Quiescence`, `Reach`, `StaleTags`, `LateReads`, `Overtaken`, `Delivery`, `Cascades`, `NodeRouting` | subscription tables, what neighbours are told, FIFO channels, lost connections, publishes |
| both | `ListChanges`, `Bus` | the cycle check and routing on the same connections |
| bus check | `CycleFinder`, `BusCheck` | union-find with path halving, breadth-first paths, pairing of socket ends |
| request/reply | `RequestReply`, `RequestEnds`, `RequestClient` | the wait for replies and everything that races to end it |
| queues | `SendQueue`, `BaseLayer`, `HeldMessages`, `NodeIntake` | a connection's send queue, and what is kept of a connection not yet accepted |
| client | `ClientAgreement`, `PubSubClient` | registrations, and what the node has been told |
| wire | `Utf8`, `MessageCodec`, `Framing` | UTF-8, messages and requests, frames on a stream |

## How the parts fit

Code between two awaits that can suspend is one event. A protocol is a datatype of states with a `Step`
function and a `Run` predicate over all interleavings, and its theorems speak about every state of every run.
The objects whose methods change state are classes: each method is the code of one event, and its contract
ties the new state to the specification function of the old one (`NodeChecker`, `NodeRouting`, `NodeIntake`,
`RequestClient`, `BaseLayer`, `PubSubClient`). `Valid()` says how an object's fields hold that state, so these
contracts connect the code to the specification; what is promised is proved of the specification. The loops of
the cycle finder, the link finder and the stream reader are methods proved against what they promise.

### The cycle check and its two guards

Each link is stamped with the start of its latest query. "Not found" from x to y for query q certifies that
links in play stamped earlier than q do not lead from x to the target without the link x-y. That set of links
only shrinks, so certificates are stable, and the latest link of a supposed cycle contradicts its own.
The theorem needs two things that the code does not enforce, stated as `CycleCheck.HelloFirst` and
`CycleCheck.NoQueryBetween`:

- (a) The acceptor has processed the establisher's Hello before the establisher's query starts. The code queues
  its Hello at `src/software_bus/pubsub.py:464` and does not wait for it to be processed.
- (b) No query is handled between the own query's result and leaving `_pending`. In the code the two are some
  turns of the event loop apart (`src/software_bus/pubsub.py:614-620`).

`CycleRaces` gives a run for each guard that breaks it alone and ends in a cycle, so neither can be dropped.
The design document (`docs/design/publish-subscribe.md:98-152`) promises a tree without naming either.
The lifecycle and attempt theorems hold in every run, without the guards.

An answer on a connection that is pending at x is different: it is "not found" without anything having been
asked (`src/software_bus/pubsub.py:658-660`). `PendingAnswer` has a guarded run in which such an answer
certifies nothing; it only promises something about a link x-y that is itself an earlier link in play, and for
that link it is enough.

Safety alone would allow a check that never finds anything out. `CheckAnswers` has that every query is answered and
that no check is stuck, whatever happens, and `CheckCompleteness` that a check that nothing disturbs finds out the
truth.

### Routing and what lost connections leave

What a node decides to tell and its tags agree on any topology and at any moment, and what it has sent will be
what its neighbour knows (`RoutingRuns`); on a quiet forest that makes the tables say where the subscribed
clients are (`Quiescence`), and so every publish arrives once (`Delivery`, and `Cascades` on the network's
channels). `Arrivals` and `PublishFlow` follow the messages themselves, on any topology and while connections
are pending, drained and lost: all that is read is handled or kept, and a publish goes where a tag matches.
`Bus` runs the cycle check and routing side by side on the same connections, so that the forest is proved there
and not assumed.

Losing a connection takes time. It leaves its list, then its tags are removed one at a time, and only then is it
closed, which cancels its relay loop. Removing a tag sends messages, any of which may find another queue full;
that connection is then dropped first, by the same task, and closing it may wait. Three things can happen
meanwhile (`Routing.Event`):

- The relay loop of the connection being dropped goes on reading (`ReadOn`). If the relay loop is itself the task
  that drops it, it is never cancelled and reads what it has buffered once it has closed it.
- The task that drops it is a relay loop and is cancelled because its own connection is closed (`GiveUp`). The
  tags that it had still to remove stay.
- The targets that come after the full queue in the fan-out wait (`Stop`, `Resume`), and what they are sent then
  may be older than what others have decided since.

`StaleAccount` follows every tag of a lost connection through all of this, and `FanoutOrder` the order of what
is sent.

### Where the code does not keep a promise

The model follows the code in these cases, shows an input, and states exactly when the promise holds.

- Held messages: the relay loop of a failed connection may read on, before the connection is closed if another
  task failed it (`src/software_bus/base_layer.py:341-349`), afterwards if it failed it itself, as when it goes
  over the limit (`src/software_bus/base_layer.py:103-106`). What it reads is processed as if the connection had
  been accepted. `HeldMessages.ReadBeforeClosing` and `HeldMessages.OverLimitReadsOn` show it,
  `HeldMessages.ProcessesOnIff` says exactly when it happens.
- So a dead connection can keep a tag for good, and its neighbours go on sending towards it
  (`src/software_bus/pubsub.py:508-518` lists the subjects once, before it removes any). It also keeps one when the
  task that removes its tags is cancelled. `StaleTags.StaleTagSpreads` and `LateReads.LateTagsStay` show all three
  ways, and `Quiescence.StaleIff` says exactly which tags stay.
- A fan-out that waits for a full connection to be closed sends to the targets behind it late
  (`src/software_bus/base_layer.py:396-407`), and a newer decision may have been sent by then: an "unsubscribe"
  that comes last makes the neighbour forget a subscription that has been made since.
  `Overtaken.OldDecisionComesLast` shows it, `FanoutOrder.PromptlyTold` that it does not happen otherwise, and
  `Quiescence.ExactIff` says exactly when the tables are right all the same. On a quiet bus where it has not
  happened clients get what they should (`Delivery.ExactlyOnce`).
- A subscribe whose send began on an earlier connection and fails after the client has connected again takes
  the registration away without telling the node (`src/software_bus/pubsub.py:872-878`).
  `ClientAgreement.StaleDropHappens` shows it, `ClientAgreement.ToldIsRegistered` says exactly when it matters.
- A wait that ends while its subscription is being sent still gets a timer afterwards
  (`src/software_bus/request_reply.py:273-276`). It fires without effect.
- A request sent while `close` waits for a callback is not on the list that `close` goes through
  (`src/software_bus/request_reply.py:331`), so it outlives it. `RequestReply.LaterRequestOutlivesClose` shows
  it, `RequestReply.SweepListIsASnapshot` says which requests are dealt with.

## Model

| member | source | states |
|---|---|---|
| CycleSafety.ActiveLinksFormForest | src/software_bus/pubsub.py:529-631 | In every state of every run that keeps both guards, with any number of nodes, delays, retries, timeouts, losses and closes, the links accepted by their establisher and listed at both ends form a forest |
| CycleSafety.NotFoundIsForGood | src/software_bus/pubsub.py:654-694 | Once x has answered "not found" to y for query q over a connection that is not pending at x, then in every later state the links in play whose check started before q did do not lead from x to q's target without the link between x and y |
| CycleSafety.PendingNotFoundIsForGood | src/software_bus/pubsub.py:658-660 | The same of every "not found" ever sent, also on a pending connection, provided the link between x and y is itself such an earlier link |
| PendingAnswer.PendingAnswersMislead | src/software_bus/pubsub.py:658-660 | A concrete run that keeps both guards in which "not found" is answered on a pending connection although earlier links do lead to the target: the condition of the first theorem cannot be dropped |
| CycleSafety.AllNotFound | src/software_bus/pubsub.py:338-351 | If every connection asked about q answered "not found" for good, and every earlier link at the node was asked, the node itself cannot reach the target over earlier links |
| CycleSafety.StepKeeps | src/software_bus/pubsub.py:456-694 | Every event that keeps both guards, at any node, keeps the invariant: links in play are known at both ends, open queries cover every earlier link, answers sent are certificates |
| CycleRaces.GuardAIsNeeded | src/software_bus/pubsub.py:464-464 | A concrete run of two nodes that breaks only the first guard (a check starts before the peer has processed the Hello) ends with two links between the same nodes, both active |
| CycleRaces.GuardBIsNeeded | src/software_bus/pubsub.py:614-620 | A concrete run of two nodes that breaks only the second guard (a query is answered between the own query's result and leaving `_pending`) ends in the same cycle |
| CheckLifecycle.OneCheckAtATime | src/software_bus/pubsub.py:529-541 | In every run, without any guard: at most one check of a node holds the lock, the lock is held exactly while one does, at most one own query is open, and `_checking` implies both the lock and an asking check whose query is open unless its connection has just been lost |
| CheckLifecycle.CheckEndsCleanly | src/software_bus/pubsub.py:529-616 | Whichever event ends a check (no Hello, refused, accepted, lost at any step), the lock is free, the node is not checking, it has no own query, and a connection that was not accepted is neither pending nor listed |
| CheckLifecycle.EndingEvents | src/software_bus/pubsub.py:535-552 | Only five kinds of event end a check, only that of their own connection, and all but the last step of an accepted one take the connection off the lists |
| CheckOutcomes.UsedMeansAccepted | src/software_bus/pubsub.py:574-578 | In every run, a connection that its establisher has on its list and not in `_pending` was accepted by a check of its own that ended "not found" |
| CheckOutcomes.RepliesCombine | src/software_bus/pubsub.py:338-351 | Whatever the order, repeats and strangers among the replies, a query's result is what the first reply of each target combines to: found, else nothing while one is missing, else unknown, else not found |
| CheckOutcomes.FoundIsTrue | src/software_bus/pubsub.py:574-575 | In every run, without any guard, a check ends with "it would create a cycle" only if other links, all accepted by their establishers by then, join the two nodes |
| CheckNames.NamesInvariant | src/software_bus/pubsub.py:742-752 | In every run, nodes know each other by their true Node IDs, and every attempt, query and message sent is of an attempt that was started and names the node that one is about |
| CheckOutcomes.AttemptsAreBounded | src/software_bus/pubsub.py:566-578 | No connection is asked about more than five times, in any run |
| CheckOutcomes.StepFollows | src/software_bus/pubsub.py:554-578 | The phases of a check follow each other only in order: lock, Hello, attempts numbered one after another up to the limit, accepted; and an attempt begins exactly with its start event |
| CheckOutcomes.GreetingDecides | src/software_bus/pubsub.py:554-565 | In every run, once the peer has said who it is, the check goes on to its first attempt exactly if that is another node that no accepted connection leads to; else the connection is refused and the lock is free |
| CheckOutcomes.ResultDecides | src/software_bus/pubsub.py:566-578 | In every run, "not found" accepts the connection, "found" refuses it, and an unknown result leads to the next attempt, until the fifth refuses it |
| CheckAnswers.QueriesAreAnswered | src/software_bus/pubsub.py:674-694 | In every run, without any guard, from the moment a node gets a query on a connection it holds the query for that connection, or its answer has been sent back on it, or the connection is lost or the node closed |
| CheckAnswers.AnswersWhen | src/software_bus/pubsub.py:654-687 | In every state, which answer a query gets at once and when, and that it is passed on to every other active node connection exactly when it gets none |
| CheckReplies.QueryTallies | src/software_bus/pubsub.py:329-360 | In every run, the result of a query is what the first replies of the connections combine to that the node used when it opened it, but for the source; a connection that has left the list counts as "not found" |
| CheckReplies.OriginIsTold | src/software_bus/pubsub.py:605-694 | In every run, when a query has ended, whoever asked is told that result, or "unknown" after a timeout: the node that it was passed on for, if still connected, or the check |
| CheckCompleteness.CheckIsRight | src/software_bus/pubsub.py:605-694 | In every guarded run in which this is the only check and nothing is lost, closed, timed out or delivered twice while it asks, its result is "found" if the active links join the two nodes, else "not found", and never unknown |
| CheckAnswers.HellosAreSent | src/software_bus/pubsub.py:456-470 | In every run, a node has sent its Node ID on every connection that it lists |
| CheckAnswers.HelloNamesPeer | src/software_bus/pubsub.py:742-746 | In every run, from the Hello on a connection on, the node knows the Node ID at its other end for as long as it lists the connection |
| CheckAnswers.NoCheckIsStuck | src/software_bus/pubsub.py:529-616 | In every run, every check can do its next step, or waits for the lock that another check of its node holds which can do its next step |
| NodeChecker.Query.Reply | src/software_bus/pubsub.py:338-351 | The object `_Query` records a reply as the specification function says, ignoring strangers, repeats and replies after the result |
| NodeChecker.CheckingNode.ActiveIsModels | src/software_bus/pubsub.py:520-525 | The list built from both connection lists holds exactly the listed connections that are not pending and have identified themselves |
| NodeChecker.CheckingNode.AnswerNow | src/software_bus/pubsub.py:654-672 | The branches of the object answer in the order the specification gives: pending source, own target, checking, repeated query |
| NodeChecker.CheckingNode.HandleQuery | src/software_bus/pubsub.py:674-687 | The object answers a query or registers it and sends it to every other active node connection; state and messages equal the specification's |
| NodeChecker.CheckingNode.HandleReply | src/software_bus/pubsub.py:749-752 | A reply reaches the query it is for, and no other query changes |
| NodeChecker.CheckingNode.HandleHello | src/software_bus/pubsub.py:742-746 | A Hello makes the connection a node connection with that Node ID |
| NodeChecker.CheckingNode.ForgetConnection | src/software_bus/pubsub.py:490-506 | Forgetting a connection removes it from `_pending` and the Node IDs and makes every open query count it as not found |
| NodeChecker.CheckingNode.ConcludeForward | src/software_bus/pubsub.py:689-694 | The forwarding task forgets its query and replies only if the source is still listed |
| NodeChecker.CheckingNode.ConcludeOwn | src/software_bus/pubsub.py:607-616 | The end of the own query clears `_checking` and the query together, leaving the result to act on |
| NodeChecker.CheckingNode.AskOwnQuery | src/software_bus/pubsub.py:607-614 | Without node connections nothing is asked and the answer is "not found"; otherwise `_checking` is set and every active node connection is asked |
| RoutingRuns.NeighboursAreTold | src/software_bus/pubsub.py:754-795 | In every state of every run, also while fan-outs wait and relay loops of lost connections read on, what was last decided to tell each active neighbour is "subscribed" for exactly the subjects that a connection other than itself is tagged with |
| FanoutOrder.PromptlyTold | src/software_bus/base_layer.py:386-407 | In every run in which no fan-out has had to wait for the closing of a target, that is also what each active neighbour was last told |
| RoutingRuns.QueuesReplay | src/software_bus/pubsub.py:466-474 | In every state of every run, processing what is held from a connection and on its way to it would leave it tagged with exactly what its sender told |
| Arrivals.HandledOrHeld | src/software_bus/pubsub.py:714-733 | In every state of every run, what a node has handled of the messages it has read on a connection it lists, followed by what it keeps of them, is all that it has read on it, in order, publishes included |
| Arrivals.LostReadsOn | src/software_bus/base_layer.py:318-349 | Of a lost connection, too, every message read or buffered is handled, in order; and closing it buffers the first part of what was on its way exactly if its own relay loop drops it |
| PublishFlow.PublishesFlow | src/software_bus/pubsub.py:797-812 | At every step, on any topology, the publishes on their way to a connection are those that were, less the one that is read, followed by those the step sends: a client's own, one handled by a node with a matching tag for that connection, unless it came from there or the fan-out stops before it, or one that a waiting fan-out goes on with |
| PublishFlow.NoPublishIsLost | src/software_bus/pubsub.py:618-631 | In every state of every run, of the publishes sent to a connection that a node lists, the node has handled the first ones, holds the next, and the rest are on their way, in order: none is lost, repeated or overtaken |
| PublishFlow.StoppedFanoutWaits | src/software_bus/base_layer.py:386-407 | A fan-out that drops a target without room leaves the targets behind it waiting with the same message until that one is closed; no other step makes a fan-out wait |
| PublishFlow.FanoutGoesOn | src/software_bus/base_layer.py:386-407 | A fan-out that goes on sends its message to each of its last targets that is still open, up to one without room, and drops out of the waiting ones |
| RoutingRuns.StepKeeps | src/software_bus/pubsub.py:458-518 | Every event keeps both, and the shape of the network: joining, receiving, draining, a fan-out that stops at a full queue and goes on later or never, losing, failing, forgetting, giving up, closing, and reading before or after closing |
| RoutingRuns.StepKeepsLeft | src/software_bus/pubsub.py:508-518 | The same events keep what is on record of lost connections: they are in no list, every tag is of a listed connection or of one of them, and so is every tag still to be removed |
| LostTags.StepNext | src/software_bus/pubsub.py:508-518 | No event touches the tags of a lost connection but reading one of its messages, which applies it, and removing one, or what is still to be removed of them but removing it or giving up |
| StaleAccount.TagsAreKept | src/software_bus/pubsub.py:508-518 | In every run, once none of its tags is to be removed any more, a lost connection is tagged with s exactly when a step has left it so (a "subscribe" read late, or a tag whose removal was cancelled) and none since has removed the tag (an "unsubscribe" read late, or the removal) |
| StaleAccount.OwnFailureLeaves | src/software_bus/base_layer.py:103-106 | A relay loop that has closed its own connection with n messages buffered leaves it tagged with exactly the subjects that those end subscribed |
| Quiescence.TaggedIff | src/software_bus/pubsub.py:754-795 | On a quiet bus whose links form a forest, where no decision has been overtaken, a node has neighbour c tagged with s exactly when in the part of the bus behind c a client is subscribed to s or a node keeps a stale tag for s, one of a connection it has lost |
| Quiescence.QuiescentRouting | src/software_bus/pubsub.py:754-795 | The same after any history: whatever run led to a state in which nothing is in progress, the links form a forest and no decision has been overtaken |
| Quiescence.StaleIff | src/software_bus/pubsub.py:508-518 | Once nothing is in progress, a node has a stale tag for s exactly when a step of the run has left one of its lost connections tagged with s and none since has removed the tag |
| Quiescence.ExactIff | src/software_bus/pubsub.py:754-795 | So after any history, once nothing is in progress and the links form a forest, the tables of all nodes are exact (every tag is of a neighbour with a subscribed client behind it, and the reverse) if and only if no lost connection has kept a tag in that way and between nodes what was sent last about each subject is what was decided last |
| Quiescence.PromptlyExactIff | src/software_bus/pubsub.py:754-795 | In runs in which no fan-out has had to wait, if and only if no lost connection has kept a tag |
| StaleTags.StaleTagSpreads | src/software_bus/base_layer.py:318-340 | A concrete run in which a relay loop drops its own connection and reads on; it ends with nothing in progress, links that form a tree, and a node whose neighbour is tagged with a subject that no client behind it is subscribed to |
| LateReads.LateTagsStay | src/software_bus/base_layer.py:341-349 | A concrete run in which no relay loop drops its own connection, yet two tags stay: one of a "subscribe" read while the task that dropped the connection waited for another to be closed, and one whose removal was cancelled with that task |
| Overtaken.OldDecisionComesLast | src/software_bus/base_layer.py:396-407 | A concrete run without stale tags that ends with nothing in progress, links that form a tree, and a node that does not know of a subscribed client, because an "unsubscribe" that had waited in a fan-out was sent last |
| ListChanges.RouteMoves | src/software_bus/pubsub.py:454-518 | Every routing event changes the lists of connections between nodes as its kind says: one made, taken, accepted or dropped, or none |
| ListChanges.CheckMoves | src/software_bus/pubsub.py:529-616 | So does every event of the cycle check |
| Bus.IdleBusIsForest | src/software_bus/pubsub.py:529-631 | In every run of the cycle check and routing together, in which connections are made, accepted and dropped in both at once and both guards are kept: whenever nothing is in progress the live links, of nodes and clients, form a forest |
| Bus.IdleBusIsQuiet | src/software_bus/pubsub.py:529-631 | So whenever nothing is in progress and no decision has been overtaken, the bus is quiet in the sense of `Delivery`: nothing about its links is assumed |
| Bus.ExactBusIff | src/software_bus/pubsub.py:754-795 | And the tables of all nodes are exact if and only if no lost connection has kept a tag and no decision has been overtaken, without assuming a forest |
| Delivery.ExactlyOnce | src/software_bus/pubsub.py:797-812 | On a quiet bus, however many clients publish a message and however the copies travel: once all have arrived, a client has got one copy for each time a publisher that has it ahead sent it if the client has a matching subscription, however many match, and else none; for flooding, every client ahead has them all |
| Delivery.NeverBack | src/software_bus/pubsub.py:797-812 | The publisher itself is never ahead of its own connection: no publish returns to its source |
| Delivery.RoutedIsFilteredFlood | src/software_bus/pubsub.py:296-309 | Routing publishes by tags delivers to every client exactly what the base layer's flood of the same publishes would, in any order, filtered by the client's subscriptions |
| Cascades.DeliveryShrinksLoad | src/software_bus/pubsub.py:754-812 | Every delivery of a subscription, unsubscription or publish strictly shrinks the sum, over messages in flight, of the size of the subtree ahead |
| Cascades.CascadesEnd | src/software_bus/pubsub.py:754-812 | So whatever is in flight, the cascade ends after at most that many deliveries |
| Cascades.PublishesOnQuietBus | src/software_bus/pubsub.py:797-812 | On the network with its channels: any number of clients publish any messages on a quiet bus while other publishes are on their way, and however the copies are delivered, once none of a message is left each client got it once for each time it was sent, if interested and ahead, and else not at all |
| NodeRouting.AddIs | src/software_bus/pubsub.py:275-280 | Adding a subscriber to a table adds that tag and no other, without repeating a connection |
| NodeRouting.DiscardIs | src/software_bus/pubsub.py:283-293 | Discarding a subscriber removes that tag and no other, and a subject left empty leaves the table |
| NodeRouting.MatchingConnections | src/software_bus/pubsub.py:296-309 | Every connection tagged with a matching subject is returned, once, and no other |
| NodeRouting.RoutingNode.SubscribersAre | src/software_bus/pubsub.py:791-795 | The concatenated subscriber lists hold each subscriber once, so their length is the number of subscribers |
| NodeRouting.RoutingNode.Unsubscribe | src/software_bus/pubsub.py:767-789 | Tables and targets equal the none, exactly one, two or more rule; nobody is told if the tag was not there |
| NodeRouting.RoutingNode.HandleSubscription | src/software_bus/pubsub.py:754-765 | Tables and targets of a subscribe or unsubscribe equal the specification's, each target once |
| NodeRouting.RoutingNode.HandlePublish | src/software_bus/pubsub.py:797-812 | The targets are the matching connections of both tables but the source, each once |
| NodeRouting.RoutingNode.DropConnection | src/software_bus/pubsub.py:508-518 | Every tag of the lost connection goes and no other, and what is sent for each subject is what unsubscribing them one after another sends |
| NodeRouting.RoutingNode.PeersAre | src/software_bus/pubsub.py:520-522 | The relayed-to connections are exactly the listed ones that are neither pending nor the source |
| CycleFinder.FindCycles | src/software_bus/bus_check.py:169-195 | For links between the given nodes, or from any node to itself: the result is one cycle per closing link, in order; their number is #links - (#nodes - #components); none exactly when the links form a forest; and each is a path of distinct nodes along earlier links between the ends of its closing link |
| CycleFinder.DisjointSets.Root | src/software_bus/bus_check.py:178-182 | Path halving ends, returns the root, and moves no node to another root |
| CycleFinder.DisjointSets.Union | src/software_bus/bus_check.py:192-192 | Joining the roots of a and b merges exactly their two classes |
| CycleFinder.TreePath | src/software_bus/bus_check.py:198-212 | Both loops end, and the result is a path of distinct nodes from start to end along tree edges |
| CycleFinder.Search | src/software_bus/bus_check.py:199-208 | The breadth-first search ends and reaches the end, each node reached from a neighbour one step nearer to the start |
| CycleFinder.AgreesAfterUnion | src/software_bus/bus_check.py:191-194 | After joining, the union-find classes are again the components of the links so far |
| CycleFinder.ClosingCount | src/software_bus/bus_check.py:186-195 | The number of closing links among the first n is n - (#nodes - #components) |
| CycleFinder.NoneIffForest | src/software_bus/bus_check.py:186-195 | No link closes a cycle exactly when the links, any links, form a forest |
| CycleFinder.OrderIsIrrelevant | src/software_bus/bus_check.py:169-195 | The number of cycles reported does not depend on the order of the links |
| Graphs.ForestCount | src/software_bus/bus_check.py:169-195 | The counting law behind it, independent of the algorithm: edges plus components are at least the nodes, and equal exactly for a forest |
| BusCheck.CollectEnds | src/software_bus/bus_check.py:147-152 | The ends that nodes own, a repeated end belonging to its last owner, each listed once |
| BusCheck.NodeEndsAre | src/software_bus/bus_check.py:150-152 | An end belongs to p exactly when the last established connection reported with it by a node is owned by p |
| BusCheck.ListensOnIff | src/software_bus/bus_check.py:119-127 | An address is listened on if and only if it is listed itself or its port is listed for all hosts ("0.0.0.0", "::" or "") |
| BusCheck.LinkIff | src/software_bus/bus_check.py:130-194 | End to end: a pair of mirrored ends is a link exactly if they are distinct, nodes own both, and one of them is at an address, or at a port of all hosts, that its owner was known to listen on or announces; it is then one edge, between the owners, named by one of the two ends |
| BusCheck.FindLinks | src/software_bus/bus_check.py:130-166 | One link for each edge of the multigraph of nodes, between the owners of its two ends, each once; and exact counts of the hidden and the unchecked ends |
| BusCheck.CountedOnce | src/software_bus/bus_check.py:159-161 | Of two distinct mirrored ends of a bus link exactly one is counted, whatever their hosts and ports |
| BusCheck.FatesAddUp | src/software_bus/bus_check.py:156-165 | Every end of a node is accounted for exactly once: paired, hidden, unchecked, or joined to a visible process that is not a node |
| BusCheck.CountsAre | src/software_bus/bus_check.py:130-166 | The hidden ends are those whose other end no node owns and is reported without an owner, the unchecked ones those whose other end is not reported at all |
| BusCheck.NoteListening | src/software_bus/bus_check.py:216-218 | Every node object's listening addresses are extended as the specification function says, and no other node's |
| BusCheck.HeardOnce | src/software_bus/bus_check.py:216-218 | They are what was known, as it was, followed by every other address the node announces, once each |
| BusCheck.Check | src/software_bus/bus_check.py:215-228 | A cycle is reported exactly when the multigraph of nodes and links between them has one, and as many as there are links too many for a forest; `links` lists those links, and the two counts are those of the hidden and of the unreported other ends |
| RequestReply.EveryLogIsAStory | src/software_bus/request_reply.py:256-337 | In every interleaving, what the caller sees is replies, then at most one end, then at most one status call, and that only with the status the wait ended with; and the status call is not missing once the task that ended the wait has gone on |
| RequestReply.StoriesAreSafe | src/software_bus/request_reply.py:311-327 | In such a log the wait ends at most once, no reply callback starts after the end, and at most one status call follows, with the status of the cause |
| RequestReply.RequestsAreThoseWaiting | src/software_bus/request_reply.py:311-314 | `_requests` holds exactly the requests that are registered and have not ended |
| RequestReply.SentRequestsAreDealtWith | src/software_bus/request_reply.py:281-290 | When `send_request` has finished, the wait has ended if it failed or if a close or loss came while sending; otherwise its timer, if any, still runs |
| RequestReply.SweepEndsThemAll | src/software_bus/request_reply.py:329-337 | Once a close or loss has gone through its list, every request that was waiting when it began has ended, or is still being sent and marked to end |
| RequestReply.SweepListIsASnapshot | src/software_bus/request_reply.py:331-331 | The list holds the requests that were waiting when the close or loss began and no other, so one sent while it waits for a callback is not dealt with |
| RequestReply.LaterRequestOutlivesClose | src/software_bus/request_reply.py:186-189 | A concrete run in which a request sent during `close`, while that waits for a callback, is still waiting with nothing to end it when the close has gone through its list |
| RequestEnds.EndsHaveOneCause | src/software_bus/request_reply.py:258-337 | In every run, every end of a wait has its one cause, and the other way round: a callback that returned true while the wait went on, the timer, a cancel, a failed send, or a close or connection loss that found the request, at once if it had been sent and else when it has been; nothing else ends a wait |
| RequestEnds.CallsHaveOneCause | src/software_bus/request_reply.py:258-327 | In every run, the callback is called for each reply that arrives while the wait goes on, and once with the status when the client has unsubscribed, and for nothing else |
| RequestEnds.MarkIsLast | src/software_bus/request_reply.py:329-337 | In every run, a request is marked with a status exactly if the last close or connection loss that found it being sent has that status |
| RequestEnds.SweepHasStatus | src/software_bus/request_reply.py:329-349 | In every run, whoever a close or connection loss visits was waiting when it began, and is told its status, never that of a timeout |
| RequestEnds.SenderFollows | src/software_bus/request_reply.py:271-290 | In every run, sending goes from subscribing to publishing to its end, raises exactly if one of the two failed, waits for the end that it has itself brought about, and the timer runs only for a request sent with a timeout and after subscribing |
| RequestEnds.SweepWaitsForCallback | src/software_bus/request_reply.py:319-337 | In every run, a close that has ended a wait goes on to its next request only after the callback, told the status, has returned |
| RequestEnds.EnderGoesOn | src/software_bus/request_reply.py:311-327 | In every run, the task that has ended a wait goes on exactly when it has unsubscribed, if there is no status to tell, and else when the callback has returned |
| RequestEnds.EnderIs | src/software_bus/request_reply.py:276-337 | In every run, whoever ends a wait waits for what is left to do: the sender if its send failed or found the request marked, the close that got to it, or the task of the callback, timer or cancel |
| RequestClient.PendingRequest.OnReply | src/software_bus/request_reply.py:258-266 | A reply callback is started exactly when the wait has not ended |
| RequestClient.PendingRequest.OnSubscribed | src/software_bus/request_reply.py:273-276 | The timer is started before the request is published, and only with a timeout |
| RequestClient.RequestReplyClient.EndWait | src/software_bus/request_reply.py:311-317 | The objects change as the specification says: ended, no timer, out of `_requests` |
| RequestClient.RequestReplyClient.OnReplyReturned | src/software_bus/request_reply.py:261-268 | A callback result ends the wait only if it is true and the wait still goes on |
| RequestClient.RequestReplyClient.OnTimerFires | src/software_bus/request_reply.py:305-309 | A timer that fires ends the wait with "timed out" unless it has ended |
| RequestClient.RequestReplyClient.CancelRequest | src/software_bus/request_reply.py:292-296 | Cancelling ends that request's wait and changes no other |
| RequestClient.RequestReplyClient.Visit | src/software_bus/request_reply.py:331-337 | A close ends a request that has been sent, marks one that is being sent, and skips one that has ended |
| RequestClient.RequestReplyClient.OnPublished | src/software_bus/request_reply.py:285-290 | After sending, a request marked meanwhile ends with the status it was marked with |
| RequestClient.RequestReplyClient.OnFails | src/software_bus/request_reply.py:281-286 | A failed send ends the wait, or only raises if it has ended |
| SendQueue.QueueIsExact | src/software_bus/base_layer.py:386-430 | At every moment `queued_bytes` is the total of the queue and within the limit, at most one task sends, none pops an empty queue, and until the connection fails, data sent followed by data queued is the data accepted, in order |
| SendQueue.NothingIsStuck | src/software_bus/base_layer.py:404-411 | While the connection is listed and good, data in the queue always has a task that can go on sending it |
| SendQueue.NothingSentAfterClosing | src/software_bus/base_layer.py:99-106 | Once the connection is closing nothing more counts as sent, also when close clears the queue during a send |
| SendQueue.RelayAcceptsIff | src/software_bus/base_layer.py:386-403 | In every run, data is accepted exactly if it is not too long and fits in the queue, and the connection leaves its list exactly if the data is not too long and does not fit |
| SendQueue.NothingSentAfterFailure | src/software_bus/base_layer.py:414-430 | In every run, a failed send takes its connection off the list for good, and nothing is sent on it again |
| SendQueue.CloseEmpties | src/software_bus/base_layer.py:99-106 | In every run, a close leaves nothing queued and a count of 0, the connection stays closing, and nothing more counts as sent |
| BaseLayer.Connection.Enqueue | src/software_bus/base_layer.py:397-407 | The object queues data and starts a task only if none is at work, or refuses for lack of room and changes nothing |
| BaseLayer.Connection.Look | src/software_bus/base_layer.py:411-412 | The loop ends on an empty queue and else starts with its head |
| BaseLayer.Connection.OnSent | src/software_bus/base_layer.py:421-427 | After a send the head is popped and its length subtracted, unless the connection was closed meanwhile |
| BaseLayer.Connection.Close | src/software_bus/base_layer.py:99-106 | Closing empties the queue and its count |
| BaseLayer.ExceptIs | src/software_bus/base_layer.py:306-308 | The flood's targets are every listed connection but the source, each once |
| BaseLayer.BaseLayerNode.HandleConnectionError | src/software_bus/base_layer.py:334-349 | A failed connection leaves its list and is closed, once; the other connections stay |
| BaseLayer.BaseLayerNode.RelayTo | src/software_bus/base_layer.py:386-407 | Every target gets the data or, without room, is dropped, independently of the others; too long goes nowhere |
| BaseLayer.BaseLayerNode.RelayToOthers | src/software_bus/base_layer.py:354-364 | By default every listed connection but the source gets the data or is dropped, and the source's queue is not touched |
| HeldMessages.HeldInOrder | src/software_bus/pubsub.py:618-631 | Until the connection fails, messages processed followed by messages kept are those received, in order; none is processed before acceptance; the size is exact and within the limit |
| HeldMessages.ReadOutcome | src/software_bus/pubsub.py:714-725 | In every run, a message that is read fails the connection exactly if the connection is not accepted and drained yet and keeps too much with it; else it is kept until then, and handled at once afterwards |
| HeldMessages.ProcessedAfterFailure | src/software_bus/pubsub.py:704-733 | When a failed connection has been closed and its relay loop has ended, what was processed after the failure is, if the relay loop itself failed the connection, all the whole messages that were in its buffer then or arrived before the close; if another task did, those of them that the relay loop had taken before the close, and not what was left in the buffer |
| HeldMessages.ProcessesOnIff | src/software_bus/pubsub.py:704-733 | So anything is processed after a failure if and only if the relay loop failed the connection itself and its buffer was not empty when it was closed, or another task failed it and the relay loop read a message before the close |
| HeldMessages.ClosedOnPurpose | src/software_bus/pubsub.py:440-454 | Nothing is read after the failure of a connection that was closed first |
| HeldMessages.ProcessedIsPrefix | src/software_bus/pubsub.py:704-733 | As long as nothing is read after a failure, what was processed is a prefix of what was received |
| HeldMessages.OverLimitReadsOn | src/software_bus/pubsub.py:717-722 | A concrete run in which a pending connection goes over the limit and, after its relay loop has closed it, the next message in its buffer is processed as if the connection had been accepted |
| HeldMessages.ReadBeforeClosing | src/software_bus/base_layer.py:341-349 | A concrete run in which another task fails a pending connection and its relay loop reads a message before the close, which is processed though an earlier one, kept, never will be |
| NodeIntake.IntakeNode.OnNewConnection | src/software_bus/pubsub.py:458-463 | A new upstream connection is pending, with nothing kept, and no other connection is touched |
| NodeIntake.IntakeNode.OnReceive | src/software_bus/pubsub.py:714-733 | A message is handled if the connection is neither pending nor draining, kept if it is and has room, and else fails it; no other connection's messages are touched |
| NodeIntake.IntakeNode.OnConnectionError | src/software_bus/pubsub.py:490-497 | What was kept from a failed connection is dropped, and no other connection is touched |
| NodeIntake.IntakeNode.OnSocket | src/software_bus/base_layer.py:318-349 | Data that arrives on a connection, and closing it, change what is known of that connection and nothing that is kept |
| NodeIntake.IntakeNode.Activate | src/software_bus/pubsub.py:618-622 | Accepting moves the kept messages from pending to draining unchanged |
| NodeIntake.IntakeNode.DrainNext | src/software_bus/pubsub.py:626-631 | The kept messages are taken one by one from the front, and the connection becomes active only when none is left |
| ClientAgreement.ToldIsRegistered | src/software_bus/pubsub.py:842-889 | In every run, while connected with `connect` finished, replaying the subscription messages sent on the current connection gives exactly the subjects with a callback if and only if every stale drop since that connection was made has been followed by a message for its subject |
| ClientAgreement.ConnectAgrees | src/software_bus/pubsub.py:842-852 | Connecting makes the agreement anew, whatever it was before |
| ClientAgreement.FailureKeepsIff | src/software_bus/pubsub.py:872-878 | A failed send keeps the agreement exactly when it is not a stale drop: a subscribe begun on an earlier connection that takes the last callback of a subject the current connection was told about |
| ClientAgreement.StaleDropBreaks | src/software_bus/pubsub.py:872-878 | Every stale drop breaks the agreement about its subject: the callback is gone and the node still believes the client is subscribed |
| ClientAgreement.StaleDropHappens | src/software_bus/pubsub.py:872-878 | A concrete run that has one: the callback is gone and the node still believes the client is subscribed |
| ClientAgreement.RegisterIs | src/software_bus/pubsub.py:868-870 | A subscribe keeps the earlier callbacks of its subject in order, adds the new one last and nothing else, and leaves every other subject as it was |
| ClientAgreement.RemoveIs | src/software_bus/pubsub.py:891-906 | A removal takes the first registration of that callback and no other, keeps the rest in order, drops the subject exactly with its last, and leaves every other subject as it was |
| ClientAgreement.RegisteredAsOften | src/software_bus/pubsub.py:858-906 | In every run, a callback is registered for a subject as often as it has been subscribed less as often as a registration of it has been removed, by an unsubscribe or a failed subscribe |
| ClientAgreement.FailedIsNotUsed | src/software_bus/pubsub.py:842-889 | In every run, a connection on which a send has failed is not current again and nothing more is sent on it |
| ClientAgreement.FailedConnectStops | src/software_bus/pubsub.py:842-848 | In every run, a `connect` that has failed to send one of its subjects sends none of the others |
| PubSubClient.Client.AddRegistration | src/software_bus/pubsub.py:868-871 | The callback is registered, and the node must be told exactly if it is the subject's first |
| PubSubClient.Client.RemoveRegistration | src/software_bus/pubsub.py:891-906 | The first registration of the callback goes, the subject is dropped with its last, and the result says so |
| Utf8.DecodesIff | src/software_bus/pubsub.py:164-164 | UTF-8 of section 3 of RFC 3629: the encoding of a string decodes to it, and no other bytes do |
| Utf8.EncodeConcat | src/software_bus/pubsub.py:164-164 | Encoding distributes over concatenation |
| Utf8.ScalarBytes | src/software_bus/pubsub.py:164-164 | The bytes of a scalar value are those of the table in section 3 of RFC 3629 |
| MessageCodec.SubjectIff | src/software_bus/pubsub.py:161-228 | A length-prefixed subject and what follows are read from exactly the bytes they are written as |
| MessageCodec.WireFormat | src/software_bus/pubsub.py:194-217 | The bytes of every message: its type, the state or result, the big-endian length of the subject, the subject, IDs and payload, each at its place |
| MessageCodec.EncodesIff | src/software_bus/pubsub.py:155-169 | Exactly the messages with a subject over 65535 bytes or an ID that is not 16 bytes do not encode |
| MessageCodec.UnknownTypeIff | src/software_bus/pubsub.py:242-272 | Data is of unknown type exactly if its first byte is none of the five types |
| MessageCodec.DecodesIffCarries | src/software_bus/pubsub.py:194-272 | Bytes decode to a message exactly when they are its encoding, followed by anything unless it is a publish |
| MessageCodec.RoundTrip | src/software_bus/pubsub.py:194-272 | Every message that encodes decodes to itself |
| MessageCodec.TrailingBytes | src/software_bus/pubsub.py:236-272 | Appended bytes are ignored, but a publish takes them as payload |
| MessageCodec.ReencodesToPrefix | src/software_bus/pubsub.py:242-272 | Whatever decodes encodes again, to a prefix of itself |
| MessageCodec.PublishLengthIsExact | src/software_bus/pubsub.py:185-191 | The length check fails exactly when the encoded publish is over the limit |
| MessageCodec.RequestIff | src/software_bus/request_reply.py:75-82 | Encoding and decoding a request are exact inverses |
| MessageCodec.RequestFormat | src/software_bus/request_reply.py:75-82 | The bytes of a request: the big-endian length of the reply subject, the reply subject, the payload |
| Framing.Receive | src/software_bus/base_layer.py:79-87 | One frame is read from the stream, or the reason why not: cut, or over the limit |
| Framing.ReceiveAll | src/software_bus/base_layer.py:318-327 | What is received depends only on the bytes of the stream, not on the chunks they come in |
| Framing.FrameFormat | src/software_bus/base_layer.py:69-72 | A frame is the big-endian length in four bytes, then the data |
| Framing.TooLongStops | src/software_bus/base_layer.py:79-87 | A length over the limit stops the reading after the frames before it, and nothing behind it is read |
| Framing.Reader.ReadExactly | src/software_bus/base_layer.py:79-80 | Exactly n bytes are read, or none if the stream ends first; the rest stays to be read |
| Framing.CutStream | src/software_bus/base_layer.py:70-87 | A stream cut inside frame k gives exactly the k frames before it |
| Framing.AnyCut | src/software_bus/base_layer.py:70-87 | Wherever a stream of frames is cut, exactly the frames that arrived whole are received |
| Framing.FullStack | src/software_bus/base_layer.py:70-87 | Messages encoded, framed, joined and split into any chunks are received and decode to what was sent: all, or those that arrived whole |
| Subjects.JoinSplit | src/software_bus/subject_matcher.py:11-11 | Joining the parts of a subject gives the subject back |
| Subjects.SplitJoin | src/software_bus/subject_matcher.py:11-11 | Splitting joined parts without dots gives the parts back |
| Subjects.LiteralMatchesOnlyItself | src/software_bus/subject_matcher.py:34-42 | A target without wild cards matches itself and nothing else |
| Subjects.MatchesByFilling | src/software_bus/subject_matcher.py:34-42 | A pattern matches exactly the subjects made by filling each of its wild cards with a part |
| Subjects.ReplySubjectIff | src/software_bus/request_reply.py:113-120 | A reply subject belongs to a request subject exactly when that has no wild card and the reply subject is derived from it with a valid unique id |
| Subjects.ValidReplySubjectIff | src/software_bus/request_reply.py:102-110 | A subject is a valid reply subject exactly if it is derived from some request subject without wild cards and some unique id |
| Subjects.DerivedSubjectsAre | src/software_bus/request_reply.py:46-99 | The names of the derived subjects, and the form of a unique id |
| Subjects.ReplySubjectBelongsToOne | src/software_bus/request_reply.py:113-120 | So it belongs to at most one request subject |
| Subjects.RepliesAreNotMixed | src/software_bus/request_reply.py:89-90 | A request's reply subject, subscribed to, matches only what is published to exactly that subject |
| Subjects.RequestsAreNotMixed | src/software_bus/request_reply.py:85-86 | An acceptor of one request subject gets the requests sent to that subject and no other |

## Left out

- Sockets, transports, flushing, clocks and random delays: timeouts, retries and losses are events that may happen at any time.
- External cancellation of the library's own tasks, and the platform races of `docs/known-issues.md`.
- `_cli.py`, the command line scripts, argument parsing, logging, `format_report`, `node_kind`, `drop_launchers` and `collect`.
- Reconnect backoff and the client's single connection slot: a client connects when it has no connection, and a send succeeds or fails.
- Parameter checks that only reject an argument (`check_publish_subject`, `_check_request_subject`, a negative timeout), and accepting requests (`accept_request`): easy members around the subjects and codecs that are modelled.
- User callbacks: their results are arbitrary. The publish callbacks of `PubSubClient._deliver` are not modelled.
- Node IDs, query IDs and unique IDs are taken to be fresh. Nodes tell the truth about themselves, as the trust model says.
- Lone surrogates: a string is a sequence of Unicode scalar values, so the error that Python raises when it encodes a lone surrogate is not modelled.
- CycleSafety.ActiveLinksFormForest: holds for runs that keep the two guards above, because without either of them it is false.
- CycleSafety.PendingNotFoundIsForGood: adds that the answering link is an earlier link in play, because without that it is false (`PendingAnswer.PendingAnswersMislead`).
- CheckOutcomes.FoundIsTrue: speaks of links accepted by then, not of links still up, because a link on the way may be lost while the answer travels.
- CheckCompleteness.CheckIsRight: asks that the query is delivered at most once on each connection, which TCP ensures and the model's network does not, and that no other check, loss, close or timeout comes in between, because then the result may be unknown or about links that are gone.
- The cycle check's messages may arrive late, out of order or again, which is more than TCP allows; the theorems hold all the same.
- Routing.Step: allows more than the code does. Which relay loop fails its own connection, how much it has buffered then, which queue is full, and how long closing takes are arbitrary, and any event may come between two removals of tags. A message for a connection that is off its list and has no room is sent all the same, which nobody notices; what is put in the queue of a closed connection is not kept.
- Bus.IdleBusIsForest: a node that closes loses its connections one by one first. In `CycleCheck` closing is one event, while the code awaits each connection (`src/software_bus/pubsub.py:417-431`); routing has no event for it, because the node's tables go with it.
- `close_connection` (`src/software_bus/pubsub.py:440-454`) forgets the connection only after closing it: `HeldMessages.ClosedOnPurpose` has that order, in `CycleCheck` and `Routing` it is a `Lose` whose closing may come at any time, and what is drained between closing and forgetting is not routed.
- The handlers of the cycle check are modelled for listed connections. The relay loop of a connection that is off its list may also go on reading Hellos, queries and replies: such a connection is asked nothing any more and open queries already count it as "not found", but a query read on it may still be passed on, though its answer goes nowhere.
- Delivery.ExactlyOnce: no subscription changes and no connection is lost while the publishes travel; what a publish does that overtakes such a change is not stated.
- `PubSubNode` is modelled by three classes, one for each set of its fields that change together (`CheckingNode`, `RoutingNode`, `IntakeNode`); dicts are maps, so the order in which a dict's keys are visited is arbitrary.
- BaseLayer.BaseLayerNode.HandleConnectionError: the error callback between leaving the list and closing is not interleaved there; `SendQueue` has the two as separate events, and `Routing` has its removal of tags.
- BaseLayer.Connection.Close: the cancelling of the relay and send tasks is not in the object; `SendQueue` ends its loops, and `HeldMessages` and `Routing` say which relay loops read on.
- NodeChecker.CheckingNode.HandleHello: resolving the `hello` future of a pending connection is the `Greet` event of `CycleCheck`.
- NodeChecker.CheckingNode.ForgetConnection: dropping the draining entry is `NodeIntake.IntakeNode.OnConnectionError`, and resolving the `lost` and `hello` futures is the `GiveUp` event of `CycleCheck`.
- Report fields `nodes` and `unseen` of bus_check, and the kinds of nodes: they play no part in finding cycles.
