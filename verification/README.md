# CH-Relay, modelled in Dafny

CH-Relay is an MQTT 5.0 broker. This project models the part of it that is a set of state machines: the
per-client session with its queue of unacknowledged messages, the session table with its generations, the
write log and the restart from disk, the filter algebra behind matching and permissions, and the router
with its share groups. It proves what the broker promises about them, and where a promise does not hold of
the code it gives an input that breaks it and the exact condition under which it holds.

`dafny verify dfyconfig.toml` checks the whole project.

## How the model is built

* **Values and classes.** Each stateful part has a value type with specification functions, and a class
  with the broker's own fields and loops whose methods are proved to compute those functions: `Session`,
  `Router`, `RetainedStore`, `Store`, `Hub`.
* **Sessions over runs.** A `Ledger` runs a session beside serial numbers for its deliveries. Conservation,
  order, timing and the packet-id window are invariants of every run (`Delivery`, `Guarantees`).
* **Two parties.** `ExactlyOnce` puts a sending session and the broker's inbound QoS 2 rule on the two ends of
  a connection that can be cut, reopened or restarted at any step. `IdReuse` shows what happens when the
  65535 packet ids come round.
* **Effects.** `Effects`, `DeadLetters` and `Timing` say what each operation visibly does, field by field on the
  state before and after, without the functions that compute it.
* **The broker.** `Broker` is the hub as a machine of atomic steps over memory, write queue and disk. `Table`,
  `Agreement`, `Accounts` and `Restart` prove what every run of it keeps. `Hub` is the imperative hub; every
  call is proved to be a run of those steps, so the run theorems hold of it. `Reload` and `LongTopics` are the
  start-up loops and the longest dead letter.
* **Text** is held as UTF-8 bytes, the unit in which the broker splits, compares and stores it. Instants and
  durations are integers in nanoseconds and the clock never runs backwards. Machine words wrap where the code
  lets them (packet ids, attempt counters, share-group cursors, log offsets, cut lengths in blobs).

## Where the code and its documentation differ

* `filter_subsumes` ignores the `$` rule that matching applies (`ShieldedRequestIsCovered`,
  `ShieldedGrantReachesFurther`), and does not see that `+/#` covers `#` (`PlusHashIsRefused`):
  `SubsumptionRightExactlyWhen` and `SubsumptionRightOutside` give both exceptions and no others.
* `topic_matches` matches some malformed filters: `MalformedFilterMatches`, `NeverMatchesExactlyWhen`.
* `allocate_id` hands out ids that are still in use: `WindowIsSharp`, `HeldIdComesRound`,
  `HandshakeDeliversExactlyWhenFresh`.
* The back-off stops doubling after the 21st attempt: `BackoffStopsDoubling`, `BackoffAsDocumentedExactly`.
* Topic lengths are cut to 16 bits in blobs: `InflightRoundTripExactly`, `EventRoundTripExactly`. A dead
  letter reaches such a length from a topic MQTT allows: `LongDeadLetterIsNotRecoverable`, `LongDeadLetterIsLost`.
* Event offsets are "never reused", but at 2^64 they wrap and the log stops: `FullLogStops`, `LogHoldsTheLatest`.
* Round robin is even forever only when the number of members divides 2^64: `EvenForeverExactlyWhen`.
* A subscription made while the expiry interval is 0 is not written when the interval becomes positive:
  `LapsedSubscriptionIsLost`; `RestartRestores` accounts for exactly what is lost.

## Model

| member | source | states |
|---|---|---|
| Topics.JoinOfSplit | crates/relay-core/src/topic.rs:23-41 | cutting a filter or topic at `/` and joining it again gives it back |
| Topics.SplitOfJoin | crates/relay-core/src/topic.rs:23-41 | joining levels that hold no `/` and cutting again gives them back |
| Topics.ParseFilter | crates/relay-core/src/topic.rs:23-41 | the validation loop accepts exactly the well-formed filters |
| Topics.TopicMatches | crates/relay-core/src/topic.rs:88-116 | the loop over the two level iterators decides matching, with the `$` shield |
| Topics.MatchingIsCovering | crates/relay-core/src/topic.rs:88-116 | for well-formed filters matching is the level-by-level relation of section 4.7.1 of MQTT 5.0, `#` covering its parent level |
| Topics.MalformedFilterMatches | crates/relay-core/src/topic.rs:86-104 | `a/#/c` is rejected by the parser and yet matches `a/x` |
| Topics.NeverMatchesExactlyWhen | crates/relay-core/src/topic.rs:86-116 | a filter matches no topic at all if and only if a level up to its first `#` is malformed |
| Topics.ParseSharedExactly | crates/relay-core/src/topic.rs:70-81 | a share string is read as group and filter exactly when it is `$share/{group}/{filter}` with a plain group and a well-formed filter |
| Topics.KeyOfInjective | crates/relay-server/src/connection.rs:211-247 | two subscription strings never stand for the same registration |
| Access.FilterSubsumes | crates/relay-core/src/acl.rs:47-80 | the index loop with its early returns decides structural subsumption |
| Access.ContainmentExactly | crates/relay-core/src/acl.rs:47-80 | on well-formed filters every topic of the request is matched by the permission if and only if it subsumes it unshielded, or the two are `+/#` and `#`; a separating topic is constructed otherwise |
| Access.SubsumptionRightExactlyWhen | crates/relay-core/src/acl.rs:41-80 | subsumption answers containment except for a wildcard-first permission and a `$` request, and for `+/#` against `#` |
| Access.SubsumptionRightOutside | crates/relay-core/src/acl.rs:41-80 | outside the two exceptions, which a caller can check first, subsumption is containment; a shielded request is never contained, and `+/#` always covers `#` and is refused |
| Access.ShieldedRequestIsCovered | crates/relay-core/src/acl.rs:47-80 | `#` subsumes `$dlq/#` and contains none of its topics |
| Access.ShieldedGrantReachesFurther | crates/relay-server/src/connection.rs:211-247 | a client allowed `#` is granted `$dlq/#` and receives `$dlq/a/b`, which no permission of it matches |
| Access.PlusHashIsRefused | crates/relay-core/src/acl.rs:47-80 | `+/#` contains `#` and does not subsume it |
| Access.DecideExactly | crates/relay-server/src/connection.rs:211-247 | each reply to a SUBSCRIBE filter exactly: no permission, over quota, invalid, granted as a plain filter, granted in the share group named; the counted strings grow by exactly the granted ones |
| Access.PublishPermittedExactly | crates/relay-core/src/acl.rs:29-33 | a PUBLISH is let through exactly when a permission covers its topic level by level and is not shielded from it |
| Access.WiderListPermitsMore | crates/relay-core/src/acl.rs:29-33 | a list whose publish permissions cover another's lets through every PUBLISH the other does |
| Access.SubsumptionPartialOrder | crates/relay-core/src/acl.rs:47-80 | subsumption is reflexive, transitive and antisymmetric on well-formed filters |
| Access.GrantedStaysPermitted | crates/relay-server/src/connection.rs:211-247 | a granted SUBSCRIBE receives only topics some permission matches, `$` shield aside, and never exceeds the subscription quota |
| Routing.SubscribeUpdatesRelation | crates/relay-core/src/router.rs:63-92 | subscribing sets exactly one entry of the flat relation and leaves no duplicate |
| Routing.UnsubscribeUpdatesRelation | crates/relay-core/src/router.rs:95-124 | unsubscribing removes exactly one entry and leaves no empty list or group |
| Routing.RemoveClientUpdatesRelation | crates/relay-core/src/router.rs:127-133 | removing a client removes all of its entries and no other |
| Routing.RegistrationsAreGranted | crates/relay-core/src/router.rs:137-141 | the counted registrations are the domain of the flat relation |
| Routing.Router.Subscribe | crates/relay-core/src/router.rs:63-73 | the map update, with its effect on the whole relation |
| Routing.Router.SubscribeShared | crates/relay-core/src/router.rs:76-92 | the group update, with its effect on the whole relation |
| Routing.Router.Unsubscribe | crates/relay-core/src/router.rs:95-108 | returns whether the entry existed, and removes only it |
| Routing.Router.UnsubscribeShared | crates/relay-core/src/router.rs:111-124 | returns whether the member existed, and removes only it |
| Routing.Router.RemoveClient | crates/relay-core/src/router.rs:127-133 | the loop over the groups removes the client everywhere |
| Routing.Router.SubscriptionCount | crates/relay-core/src/router.rs:137-141 | the summed list lengths are the size of the flat relation |
| Routing.Router.MatchingSubscribers | crates/relay-core/src/router.rs:146-160 | sorted by client, each client with a matching fan-out subscription once, at its highest matching QoS |
| Routing.Router.Route | crates/relay-core/src/router.rs:171-191 | as a multiset sorted by client: the fan-out clients plus one pick from each group with a matching member; only those cursors move |
| Routing.BestMeaning | crates/relay-core/src/router.rs:146-160 | the QoS offered is the maximum granted over the matching filters |
| Routing.MatchingMembersExactly | crates/relay-core/src/router.rs:174-187 | the members a group picks from are exactly those with a matching filter |
| Routing.PickHasRegistration | crates/relay-core/src/router.rs:174-187 | a pick holds a matching registration in its group at that QoS |
| Fairness.GroupWalksItsMembers | crates/relay-core/src/router.rs:174-187 | over any topics that see the same members or none, the k-th pick of a group is slot k, whatever is routed elsewhere |
| Fairness.EvenUntilWrap | crates/relay-core/src/router.rs:174-187 | until the cursor wraps, k turns over n members give each floor(k/n) or ceil(k/n) |
| Fairness.GroupPicksEvenly | crates/relay-core/src/router.rs:171-191 | over any topics that see the same n members or none, the picks a group makes are spread floor or ceiling of k/n over its positions, and over its members when they differ, until the cursor wraps |
| Fairness.UnevenAtWrap | crates/relay-core/src/router.rs:174-187 | when n does not divide 2^64, the turns around the wrap pick the first member twice too soon |
| Fairness.EvenForeverExactlyWhen | crates/relay-core/src/router.rs:174-187 | every window from every cursor is even if and only if n divides 2^64 |
| Sessions.Session.AllocateId | crates/relay-server/src/hub.rs:348-355 | 65535 is followed by 1, and 0 is never handed out |
| Sessions.Session.Deliver | crates/relay-server/src/hub.rs:366-401 | QoS 0 is sent or dropped; QoS 1/2 is queued with a new id, one attempt and its first due time, and sent if online |
| Sessions.Session.Retransmit | crates/relay-server/src/hub.rs:405-420 | the in-place loop re-arms every entry and sends one packet for each |
| Sessions.Session.OnPuback | crates/relay-server/src/hub.rs:422-426 | removes the QoS 1 entries with the id, keeps all others in order |
| Sessions.Session.OnPubrec | crates/relay-server/src/hub.rs:430-445 | the first matching QoS 2 entry moves on in place, and a PUBREL is sent even for an unknown id |
| Sessions.Session.OnPubcomp | crates/relay-server/src/hub.rs:447-450 | removes the completed QoS 2 entries with the id, keeps all others in order |
| Sessions.Session.RetryLoop | crates/relay-server/src/hub.rs:457-497 | the index loop with in-place removal is one pass over the queue |
| Sessions.Session.TickRetries | crates/relay-server/src/hub.rs:457-505 | queue, packets, dead letters and the changed flag are those of one pass |
| Sessions.Session.DrainUndelivered | crates/relay-server/src/hub.rs:509-522 | undelivered messages outside `$dlq/` leave the queue in order, the rest stay |
| Delivery.SweepPartitions | crates/relay-server/src/hub.rs:405-522 | a pass keeps a subsequence of the queue, entry by entry as its verdict says |
| Guarantees.TimerPartitionsQueue | crates/relay-server/src/hub.rs:457-505 | a timer pass takes out exactly the due, exhausted, undelivered entries outside `$dlq/`, keeps the rest in order, and gives each due entry one more attempt with the next due after that attempt's back-off |
| Guarantees.TimerSendsAndBuries | crates/relay-server/src/hub.rs:457-505 | the packets are one duplicate or PUBREL for each entry due and kept, in order; the dead letters are the entries taken out, in order, with message and attempts |
| Guarantees.ExpiryPartitionsQueue | crates/relay-server/src/hub.rs:509-522 | expiry takes out exactly the QoS 1 and QoS 2 messages still undelivered outside `$dlq/`, leaves the rest as it was, and its dead letters are those messages in order with their attempts |
| Timing.DueExactlyAfterBackoff | crates/relay-server/src/hub.rs:393-505 | in every run each queued message is due exactly the back-off of its attempts after it was last sent or re-armed |
| Timing.DueWithinBackoff | crates/relay-server/src/hub.rs:393-505 | in every reached state no message is due later than one back-off of its attempts from now |
| Delivery.EveryRunKeeps | crates/relay-server/src/hub.rs:366-522 | every run of a session keeps order, conservation and timing |
| Guarantees.EachMessageInOnePlace | crates/relay-server/src/hub.rs:366-522 | in every run each QoS 1/2 delivery is in exactly one place: queued, acknowledged, dead-lettered once, or discarded; a `$dlq/` message is never dead-lettered |
| Guarantees.BurialsAreDeadLetters | crates/relay-server/src/hub.rs:457-522 | the dead letters returned are the buried messages themselves, in order, with their attempts |
| Guarantees.NeverDeadLetteredEarly | crates/relay-server/src/hub.rs:457-505 | no message is dead-lettered by the timer with fewer than m = max(1, max_attempts) attempts or before the sum of the first m back-offs, whatever reconnects and restarts happen |
| Guarantees.RetransmissionInOrder | crates/relay-server/src/hub.rs:405-420 | in every run the queue is in allocation order and never holds a duplicate flag; a reconnect puts one packet per entry on the new connection in that order |
| Guarantees.WindowKeepsIdsApart | crates/relay-server/src/hub.rs:348-450 | while at most 65535 ids are out since the oldest entry, queued ids differ and one acknowledgement removes at most one entry |
| Guarantees.WindowIsSharp | crates/relay-server/src/hub.rs:348-355 | with 65536 ids out, one PUBACK removes two different messages |
| Guarantees.RetriesProgress | crates/relay-server/src/hub.rs:457-505 | every tick that finds such a message due lowers the remaining work, and none raises it |
| Guarantees.RetriesEnd | crates/relay-server/src/hub.rs:457-505 | m ticks that find everything due leave no message that could still be dead-lettered |
| Guarantees.BackoffAsDocumentedExactly | crates/relay-server/src/hub.rs:58-63 | the back-off is base times 2^(attempt-1) up to the cap if and only if the attempt is at most 21, the base is 0, or the cap is reached by then |
| Guarantees.BackoffStopsDoubling | crates/relay-server/src/hub.rs:58-63 | a base of 1 ns and a cap of 2^21 ns wait 2^20 ns before attempt 22, half of what is documented |
| ExactlyOnce.ExactlyOnceDelivery | crates/relay-server/src/connection.rs:334-363 | over cuts, reconnects, restarts and timer repeats, if each id is free when given out: a QoS 2 message is published on at most once, one awaiting PUBCOMP or completed exactly once, with its own content |
| ExactlyOnce.ExactlyOnceWithoutReuse | crates/relay-server/src/hub.rs:1222-1234 | the same, content included, with no assumption but that at most 65535 ids have been given out |
| IdReuse.HandshakeDeliversExactlyWhenFresh | crates/relay-server/src/hub.rs:348-355 | on a quiet connection a QoS 2 handshake always completes, and publishes its message if and only if the receiver does not still hold the id |
| IdReuse.HeldIdComesRound | crates/relay-server/src/hub.rs:348-355 | a run without reuse reaches a quiet state whose next id the receiver still holds |
| Codec.DecodeInflightBlob | crates/relay-server/src/hub.rs:159-208 | the cursor loop computes the recursive decoder |
| Codec.InflightRoundTripExactly | crates/relay-server/src/hub.rs:143-208 | decoding an encoded queue gives the counter and the queue with due times recomputed if and only if all topics are below 65536 and payloads below 2^32 bytes |
| Codec.MessageLayout | crates/relay-server/src/hub.rs:143-157 | the bytes of a queued message place by place: kind, attempts, packet id, retain flag, topic and payload behind their lengths, most significant byte first |
| Codec.ReleaseLayout | crates/relay-server/src/hub.rs:331-346 | the bytes of an entry waiting for PUBCOMP place by place |
| Codec.BlobLayout | crates/relay-server/src/hub.rs:331-346 | a blob is the counter in two bytes and then the entries |
| Codec.EventLayout | crates/relay-server/src/hub.rs:241-253 | the bytes of a logged event place by place |
| Codec.TornBlobIsSafe | crates/relay-server/src/hub.rs:159-208 | any prefix of an encoded blob fails to decode or gives the same counter and a prefix of the queue |
| Codec.EventRoundTripExactly | crates/relay-server/src/hub.rs:241-265 | a logged event reads back as published if and only if its topic is shorter than 65536 bytes |
| EventLog.Append | crates/relay-server/src/storage.rs:245-266 | the offset is one past the last key and the pruning loop drops the oldest rows |
| EventLog.LogHoldsTheLatest | crates/relay-server/src/storage.rs:242-266 | after any n appends with retention r the keys are the last r numbers below min(n, 2^64), each holding its blob |
| EventLog.LogIsUnbroken | crates/relay-server/src/storage.rs:242-266 | with retention changing from append to append the log stays one unbroken span of numbered blobs |
| EventLog.FullLogStops | crates/relay-server/src/storage.rs:242-266 | after offset 2^64 - 1 a bounded log drops every new event |
| EventLog.LoadEvents | crates/relay-server/src/storage.rs:270-279 | the rows from an offset on, each once, in offset order |
| EventLog.RangeOfSpan | crates/relay-server/src/storage.rs:270-279 | of an unbroken log, exactly the numbered blobs from the later of the two bounds |
| Storage.Store.DropSession | crates/relay-server/src/storage.rs:141-164 | the loop over the collected keys removes the session, its queue and the rows behind its prefix |
| Storage.Store.Write | crates/relay-server/src/storage.rs:429-463 | each queued write applied to its table |
| Storage.Store.Drain | crates/relay-server/src/storage.rs:423-427 | the worker applies the queue in order |
| Storage.Store.LoadSessions | crates/relay-server/src/storage.rs:306-341 | each session row once, with exactly its own subscription rows, each once |
| Storage.PrefixIsClient | crates/relay-server/src/storage.rs:141-160 | for ids without NUL, a row starts with a client's prefix if and only if it is that client's |
| Storage.OthersKeepRows | crates/relay-server/src/storage.rs:429-463 | a write about one client changes no row of another |
| Storage.OwnSubRow | crates/relay-server/src/storage.rs:141-194 | what each write does to the client's own subscription rows |
| Retained.RetainsTheLast | crates/relay-core/src/retained.rs:31-37 | after any retained publishes each topic holds its last message, unless that one was empty |
| Retained.RetainedStore.Apply | crates/relay-core/src/retained.rs:31-37 | stores the message, or clears the topic on an empty payload |
| Retained.RetainedStore.Matching | crates/relay-core/src/retained.rs:46-55 | exactly the matching messages, once each, in strict topic order |
| Retained.PrecedesIsByteOrder | crates/relay-core/src/retained.rs:46-55 | the order of retained messages is by the first byte of the topic that differs, a topic before its extensions |
| Retained.RetainedStore.Load | crates/relay-server/src/storage.rs:108-127 | the store rebuilt from its rows |
| Retained.UnpackedAgain | crates/relay-server/src/storage.rs:90-127 | rows that agree with the store load as the same store |
| Table.EveryRunKeepsTable | crates/relay-server/src/hub.rs:690-947 | over every run the two indexes are inverse and every id and generation in use was handed out |
| Table.DeadStaysDead | crates/relay-server/src/hub.rs:690-947 | an id whose session is gone is never used again, and a superseded handle never becomes current again |
| Table.SupersededHandleIsHarmless | crates/relay-server/src/hub.rs:822-877 | after a client connects again, whatever runs in between, a detach or purge with the earlier handle changes nothing |
| Accounts.EverySessionIsAccounted | crates/relay-server/src/hub.rs:690-1234 | every session in every reachable table is the end of a session run from its creation |
| Accounts.AccountedIsReached | crates/relay-server/src/hub.rs:311-522 | such a session has a ledger with order, conservation and timing |
| Accounts.QueueIsStorable | crates/relay-server/src/hub.rs:331-346 | its queue holds only entries the blob can express, and its counter is not 0 |
| Accounts.LeavingClosesTheAccount | crates/relay-server/src/hub.rs:690-947 | a session leaves the table only by a purge, by leaving at interval 0 or by a clean start; its account then closes with every message acknowledged, dead-lettered once or dropped, and only the purge dead-letters; what a purge drops is exactly what waits for PUBCOMP or is itself a dead letter |
| Agreement.StepKeepsClients | crates/relay-server/src/hub.rs:690-1003 | every step keeps each client's session, queue and subscription rows in agreement with memory |
| Agreement.UnsavedIsUnchanged | crates/relay-server/src/hub.rs:1025-1098 | an act that is not followed by a queue write has not changed what would be written |
| Agreement.EveryRunAgrees | crates/relay-server/src/hub.rs:690-1188 | after every run, with queued writes counted, retained rows, session rows, queues and subscriptions are those memory calls for, less exactly what is recorded as forgotten or unwritten |
| Restart.RestartRestores | crates/relay-server/src/hub.rs:579-642 | restart brings back the same retained messages and exactly the durable sessions, each with its expiry, its unforgotten subscriptions at their QoS, and its counter and queue if and only if they are recoverable |
| Restart.DurableSessionSurvives | crates/relay-server/src/hub.rs:579-642 | a session durable since creation comes back with every subscription, its counter and its queue in order, only due times recomputed |
| Restart.RestartKeepsHealth | crates/relay-server/src/hub.rs:579-642 | the restarted broker satisfies every invariant again |
| Restart.EveryLifeAgrees | crates/relay-server/src/hub.rs:579-642 | over any number of runs and drained restarts memory and disk agree |
| Restart.RestartAfterRun | crates/relay-server/src/hub.rs:579-642 | after any run from an empty disk, restart rebuilds the same retained messages and exactly the durable sessions; one whose interval was positive in every state comes back with counter, queue and every registration |
| Restart.UnrecoverableIsLost | crates/relay-server/src/hub.rs:579-642 | a durable session whose queue is not recoverable comes back without it |
| LongTopics.LongDeadLetterIsNotRecoverable | crates/relay-server/src/hub.rs:143-157 | a legal run of hub calls with no published topic over 65535 bytes leaves a durable `$dlq/#` subscriber with a queue that does not fit its blob |
| LongTopics.LongDeadLetterIsLost | crates/relay-server/src/hub.rs:913-937 | restarted on the disk of that run, the subscriber does not get its queue back |
| Restart.LapsedSubscriptionIsLost | crates/relay-server/src/hub.rs:718-820 | a subscription made at interval 0 has no row after a takeover with interval 5 |
| Reload.LoadsRegister | crates/relay-server/src/hub.rs:614-622 | parsing the stored strings registers exactly what the rows call for |
| Reload.ReloadStep | crates/relay-server/src/hub.rs:610-638 | one loaded session row keeps the rebuilt table and router right |
| Hub.Hub.FromDisk | crates/relay-server/src/hub.rs:579-642 | the start-up loops build a broker that satisfies the reload specification |
| Hub.Reopen | crates/relay-server/src/hub.rs:579-642 | started on the drained disk of a healthy broker the hub is valid, so every call can be made, and healthy again |
| Hub.Hub.Connect | crates/relay-server/src/hub.rs:690-747 | new, clean-start and resume branches are the connect step; the handle and the session-present flag are right |
| Effects.ConnectAttaches | crates/relay-server/src/hub.rs:690-747 | after a connect the session is online with the new generation and interval; a new or clean one starts empty, a resumed one keeps id, counter, inbound ids and every queued message with its attempts |
| Effects.LeavesExactlyWhen | crates/relay-server/src/hub.rs:690-877 | a session leaves the table exactly by its own leave at interval 0, by a purge that finds it offline under its generation, or by a clean start of its client |
| Effects.LeavingUnregisters | crates/relay-server/src/hub.rs:695-947 | a session that leaves takes all its registrations along and nobody else's |
| Effects.GoneIsUnregistered | crates/relay-server/src/hub.rs:695-1003 | over every run a session that is gone has no registration, unless someone subscribed for its id later |
| Effects.TargetIsRegistered | crates/relay-server/src/hub.rs:1072-1075 | every target of a publish holds a registration at its QoS, so a client without one is never picked |
| Effects.LeaveKeepsTheRest | crates/relay-server/src/hub.rs:826-845 | going offline with a positive interval changes the connection and nothing else |
| Effects.OthersUntouched | crates/relay-server/src/hub.rs:690-1234 | no step changes a session it is not about |
| Effects.SubscribeGrants | crates/relay-server/src/hub.rs:951-1003 | subscribing grants exactly one registration and unsubscribing takes exactly one away |
| Hub.ConnectGivesHandle | crates/relay-server/src/hub.rs:690-747 | the handle returned is the current one for its session |
| Hub.Hub.Discard | crates/relay-server/src/hub.rs:940-947 | the loop over the index removes the session everywhere and queues its removal |
| Hub.Hub.Detach | crates/relay-server/src/hub.rs:826-845 | discards at interval 0, goes offline otherwise and says when a purge is due, ignores superseded handles |
| Hub.Hub.PurgeIfIdle | crates/relay-server/src/hub.rs:849-877 | an idle session at that generation is discarded and its undelivered messages dead-lettered in order; otherwise nothing changes |
| Hub.Hub.TickAll | crates/relay-server/src/hub.rs:882-903 | every session gets its timer turn once, in some order, with the writes and dead letters of those turns |
| Hub.Hub.RunRetries | crates/relay-server/src/hub.rs:882-907 | the turns followed by one dead letter for each message buried in them |
| Hub.Hub.DeadLetter | crates/relay-server/src/hub.rs:913-937 | one record and one publish on `$dlq/{client}/{topic}`, nothing for a message already there |
| Hub.Hub.Subscribe | crates/relay-server/src/hub.rs:951-972 | registers the parsed string and writes it for durable sessions only |
| Hub.Hub.Unsubscribe | crates/relay-server/src/hub.rs:976-1003 | returns whether the registration existed, removes it and its row |
| Hub.Hub.DeliverRetained | crates/relay-server/src/hub.rs:1007-1042 | the matching retained messages in topic order at the lower QoS, with one queue write if any was above QoS 0 |
| Hub.Hub.Publish | crates/relay-server/src/hub.rs:1048-1100 | the retained update, the journal entry, the route and one delivery per live target, as a run of steps; counts the live targets |
| Effects.DeliveryAdds | crates/relay-server/src/hub.rs:366-401 | one delivery: the packet and the queue entry field by field, with the next packet id and the first due time |
| Effects.PublishAdds | crates/relay-server/src/hub.rs:1048-1100 | a publish adds to each live session exactly its copies: topic and payload as published, at a QoS that is one of the published and the granted one and no higher than either, with a queue entry for each above QoS 0 |
| Effects.RetainedDeliveryAdds | crates/relay-server/src/hub.rs:1007-1042 | a new subscriber gets each retained message in order, flagged, at a QoS that is one of the stored and the granted one and no higher than either |
| Effects.PublishRetains | crates/relay-server/src/hub.rs:1048-1060 | a retained publish sets or clears exactly its own topic, and any other publish none |
| Effects.CountsLiveTargets | crates/relay-server/src/hub.rs:1076-1099 | the count returned is the number of targets in the table |
| DeadLetters.PublishJournals | crates/relay-server/src/hub.rs:1062-1070 | a publish is journalled once exactly when the log is on and its topic does not begin with `$`, and reads back as published |
| Hub.Hub.CopyTo | crates/relay-server/src/hub.rs:1078-1099 | deliveries under the lock and writes after it amount to delivering and writing target by target |
| Calls.EachGetsItsCopies | crates/relay-server/src/hub.rs:1078-1099 | each live session gets exactly its own copies in order at the lower of the two QoS, and no other session changes |
| Calls.CopiesDue | crates/relay-server/src/hub.rs:1072-1092 | the copies due to a client at each QoS: one at its best fan-out subscription and one per group that picks it |
| DeadLetters.LetterTopic | crates/relay-server/src/hub.rs:932-936 | a dead letter is published on `$dlq`, then its client, then the whole original topic; `$dlq/{client}/#` matches exactly that client's |
| DeadLetters.RecordReadsBack | crates/relay-server/src/hub.rs:210-238 | the record holds attempts, reason, client, topic, QoS and payload in the documented layout |
| DeadLetters.OneRecordEach | crates/relay-server/src/hub.rs:913-930 | dead-lettering a list leaves one record for each message, in order |
| DeadLetters.EveryRecordIsKept | crates/relay-server/src/storage.rs:225-240 | over every run the table keeps every record in order, numbered from 0 |
| Effects.TimerLetters | crates/relay-server/src/hub.rs:882-907 | the timer's dead letters for a session are its due, exhausted, undelivered messages outside `$dlq/`, under its client id |
| Effects.PurgeLetters | crates/relay-server/src/hub.rs:849-877 | a purge's dead letters are the undelivered messages outside `$dlq/`, QoS 1 and QoS 2 alike, under the client id |
| Effects.OfflineWaits | crates/relay-server/src/hub.rs:887-892 | the timer leaves an offline session alone |
| Calls.DeadLettersEnd | crates/relay-server/src/hub.rs:913-937 | what is published for a dead letter can produce no further dead letter and is not journalled |
| Hub.Hub.OnPuback | crates/relay-server/src/hub.rs:1151-1162 | the acknowledgement step with its queue write |
| Hub.Hub.OnPubrec | crates/relay-server/src/hub.rs:1164-1175 | the PUBREC step with its queue write |
| Hub.Hub.OnPubcomp | crates/relay-server/src/hub.rs:1177-1188 | the PUBCOMP step with its queue write |
| Hub.Hub.InboundSeen | crates/relay-server/src/hub.rs:1222-1227 | true exactly when the id was not held, or there is no session |
| Hub.Hub.InboundRelease | crates/relay-server/src/hub.rs:1230-1234 | the id is let go |
| Effects.InboundIdsAreHeld | crates/relay-server/src/hub.rs:1222-1234 | over every run, as long as a session stays, it holds exactly the inbound ids seen and not let go since, through disconnects and takeovers |
| Effects.ReplayReaches | crates/relay-server/src/hub.rs:1119-1145 | replayed packets reach an online session in order and touch neither its queue nor its counter |
| Hub.Hub.ReplayTo | crates/relay-server/src/hub.rs:1107-1147 | sends the readable matching rows from the offset on, in order, and counts them |
| Hub.RunSound | crates/relay-server/src/hub.rs:348-355 | no run reaches a session whose packet-id counter is 0, so the id allocator never panics |
| Replay.ReplayIsExact | crates/relay-server/src/hub.rs:1107-1147 | of an unbroken log, a replay is exactly the surviving messages from the offset on with a matching topic, in publication order, each with its own topic and payload, at QoS 0 without packet id, tagged with its offset |
| Replay.WantedExactly | crates/relay-server/src/hub.rs:1119-1128 | the replayed numbers are exactly those in range whose topic matches, increasing |
| Replay.LogOfRun | crates/relay-server/src/hub.rs:1062-1070 | the log after a run holds its journalled events in order, and nothing else touches it |
| Replay.ReplayOfRun | crates/relay-server/src/hub.rs:1107-1147 | replay at the end of any run, stated from the messages published in it |

## Left out

- Sockets, TLS, WebSocket, the dashboard and process start-up: input and output over libraries that are not part of this model.
- The MQTT wire format: packets are taken as decoded.
- redb itself and failing writes: each table is a map and each write one atomic step.
- JWT claims, templates and configuration loading: they would only add easy members.
- Interleavings inside one hub call: every step holds its locks from start to end, and a call is a sequence of steps.
- Running without a store: the model always has a disk; leaving it out would drop writes and nothing else.
- Reading a replay request out of its topic (`parse_replay`): it would only add an easy member.
- Statistics, logging and Will publication: they would only add easy members.
- Crashes with writes still queued: agreement is stated for the disk once the queue has drained, and a broker does not flush before it acknowledges.
- Inbound QoS 2 ids across a restart: documented as not persisted, and cleared by the reload.
- Hub.Hub.FromDisk: does not state the purge timers it starts for the sessions it rebuilds; a purge may happen at any step.
- Agreement.EveryRunAgrees: is stated for client ids without NUL, which MQTT requires and the row keys rely on; the table theorems need no such condition.
- Table.EveryRunKeepsTable: does not model the 64-bit wrap of the id and generation counters, which needs 2^64 connects.
- ExactlyOnce.ExactlyOnceDelivery: the receiving party keeps its dedup set for the whole run; a receiver that is itself restarted forgets it.
- Codec.EventRoundTripExactly: reads the topic as bytes; replacing invalid UTF-8 is not modelled, and never happens to text the broker wrote.
- Replay.ReplayOfRun: is stated for topics below 65536 bytes, the most MQTT allows in a PUBLISH.
- Hub.Hub.DeadLetter: the time stamp in the record is a parameter; nothing in the broker reads the record back.
- Guarantees.NeverDeadLetteredEarly: attempt counters are modelled with 32-bit wrap-around where a debug build would stop.
