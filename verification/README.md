# Open-ACN node: a Dafny model

An Open-ACN node routes envelopes between agents.  This project models the hand-written
concurrent state of that node and the codecs it depends on, and proves what the node
guarantees over every input, every interleaving and every restart.

| file | what it models |
|---|---|
| `Wrappers.dfy`, `Envelopes.dfy` | results, options and envelopes |
| `Bytes.dfy` | big-endian naturals, `padToLeft`, `binary.BigEndian` |
| `Der.dfy` | secp256k1 signatures between R\|\|S and DER, with the DER reader and writer of `encoding/asn1` |
| `Eip55.dfy` | EIP-55 checksummed addresses |
| `Framing.dfy` | length-prefixed frames: the record log on disk and streams read in arbitrary chunks |
| `Por.dfy` | agent records and the proof-of-representation (PoR) check |
| `RecordLog.dfy` | the record maps and log of a peer, and the replay of the log at start-up |
| `Registry.dfy` | every interleaving of registrations, lookups and restarts |
| `AddressRequests.dfy` | which record an address request is answered with |
| `DelegateClients.dfy` | the delegate map against the connections that are alive |
| `RecordAgreement.dfy` | what relay and delegate clients of one address do to each other's records |
| `DhtLookup.dfy` | the DHT lookup loop with its retries and deadline |
| `Mailbox.dfy` | the mailbox server and every interleaving of its requests |
| `Announcement.dfy` | the address-announcement handshake (maps, WaitGroup, flag) |
| `AnnouncingPeer.dfy` | the announcement handlers as methods that change the peer in place, each a chain of handshake steps |
| `Sequences.dfy`, `Scheduler.dfy`, `DeliveryOrder.dfy` | pair queues, their workers and the slow queue: conservation, order, blocking |
| `LocalDelivery.dfy` | envelopes for targets the node knows, which never reach the DHT or the slow queue |
| `RoutingPeer.dfy` | accepting, routing and slow sending as methods that change the peer in place, each a chain of scheduler steps |
| `PairQueues.dfy` | the scheduler with looking a pair queue up and creating it as separate steps, and its refinement to the one above |
| `Dialogue.dfy` | the ACN message handlers on streams and pipes |

Concurrency is modelled as steps over shared state: one step per critical section, channel
operation or WaitGroup operation, and a run is any sequence of steps from the initial state.
Hashes, ECDSA, Bech32, protobuf and peer-ID derivation are function parameters; where a proof
needs a codec to round-trip, that is a `requires`.  Sub-messages of a decoded message are taken
to be present.  Network, clock and HTTP outcomes are arbitrary step or method arguments.

Seven properties the documentation or the design suggests do not hold of the code, and each has
its exact condition here:

* Total order of messages per agent pair (README.md, line 70) holds exactly when the first DHT
  attempt of the pair cannot fail (`DeliveryOrder.TotalOrder`).  What always holds is an
  order-preserving merge of two lanes (`DeliveryOrder.PairOrder`).
* A send to the slow queue never blocks exactly with at most two concurrent routers, or when
  nothing can fail (`DeliveryOrder.SendNeverBlocks`).
* No announcement is lost exactly when the relay service is on or the log holds nothing but the
  node's own address: `handleAeaNotifStream` scans `dhtAddresses` only with the relay service on,
  while the log is replayed into it in any case (`Announcement.NoLostAnnouncement`).
* The lock is released between looking up `To + Sender` and creating its channel.  That this comes
  to one step, with one worker per channel, holds exactly when no two delegate addresses that can
  be live together end with one another (`PairQueues.CreationIsAtomic`).  Distinct addresses of
  one length, as within one ledger, meet the condition (`PairQueues.SameLengthUnrelated`); two live
  connections of one address do not.
* A restart finds the record of a relay client that is in memory exactly when its registrations
  come one at a time, or there is only one record to register: `agentRecords` and the log are
  written under different locks (`RecordAgreement.RecordSurvivesRestart`).  The relay map itself
  always survives (`Registry.CrashRecovery`).
* Receivers accept the stored record of an address in every reachable state exactly when no relay
  client can register that address through a peer of another key
  (`RecordAgreement.StoredRecordAcceptable`).
* The delegate map lists an address exactly while a connection of it is alive exactly when the
  address has one connection at a time, or nobody can register it here: a connection that ends
  deletes the address, whoever else uses it (`DelegateClients.DelegateMapIsCurrent`).

The handlers also answer stray terminal messages that the protocol's reply table leaves
unanswered; `Dialogue.ReplyRules` says exactly which.

The rows for `Dialogue.SoleFrameArrives`, `Dialogue.ExchangesAreFaithful`, `Dialogue.StatusMeanings`,
`Dialogue.ReplyRules`, `Mailbox.LeavingIsComplete`, `AddressRequests.MailboxClientAnswered`, `DhtLookup.DecisiveOnce`,
`Por.PorBindsAgentAndPeer` and `Por.PorErrorCodes` are supporting facts: case analyses of one
or two steps that the results about runs rest on.

## Model

| member | source | states |
|---|---|---|
| `Announcement.NoLostAnnouncement` | dht/dhtpeer/dhtpeer.go:1690-1755 | every reachable state keeps every published address, announced or with a handler still to wait and read the flag, if and only if relay addresses are scanned or none but the node's own was replayed |
| `Announcement.NoneLostWhenScanned` | dht/dhtpeer/dhtpeer.go:1816-1846 | once the flag is up, relay, delegate and own addresses are marked or pending, over all interleavings of registrations, disconnects and notification handlers |
| `Announcement.StoredRelayLost` | dht/dhtpeer/dhtpeer.go:1713-1724 | for every configuration without relay service and every other stored address, a run that raises the flag and leaves that very address published, unannounced and with no handler pending |
| `Announcement.PendingClientAnnounces` | dht/dhtpeer/dhtpeer.go:1748-1755 | a handler still to wait or read the flag is not stuck: once no notification is in progress it marks its address |
| `Announcement.SafeClientStep` | dht/dhtpeer/dhtpeer.go:928-949 | a registration step keeps every address safe; the wait passes only when every handler in progress has yet to scan |
| `Announcement.SafeNotifStep` | dht/dhtpeer/dhtpeer.go:1690-1746 | a notification step keeps every published address safe: the flag rises only after both scans |
| `AnnouncingPeer.NothingLost` | dht/dhtpeer/dhtpeer.go:1690-1755 | an object changed only by the handlers below never loses a published address, under the same condition |
| `AnnouncingPeer.DhtPeer.HandleAeaNotifStream` | dht/dhtpeer/dhtpeer.go:1672-1746 | raises the flag exactly when the peer is routed and the own address announced, and then has marked the own and every scanned address; the WaitGroup is back where it was on every exit |
| `AnnouncingPeer.DhtPeer.ScanAll` | dht/dhtpeer/dhtpeer.go:1715-1722 | the scan loop marks exactly the addresses of the map, through reachable states only |
| `AnnouncingPeer.DhtPeer.RegisterClient` | dht/dhtpeer/dhtpeer.go:1816-1846 | publishes the address in its own map only, and marks it exactly when the flag is up |
| `AnnouncingPeer.DhtPeer.FinishRegistration` | dht/dhtpeer/dhtpeer.go:1834-1846 | what follows the map write once `Wait` returns, whatever handlers have run in between: the address is marked exactly when the flag is up by then |
| `AnnouncingPeer.DhtPeer.RemoveClient` | dht/dhtpeer/dhtpeer.go:1035-1039 | a delegate connection that ends takes its address out of the map and changes nothing else |
| `AnnouncingPeer.DhtPeer.RegisterAgentAddress` | dht/dhtpeer/dhtpeer.go:1852-1860 | marks the address, whatever the DHT then answers |
| `Scheduler.EnvelopeConservation` | dht/dhtpeer/dhtpeer.go:1012-1031 | every accepted envelope is in exactly one of queue, router, slow queue, slow sender, settled or dropped; at most two DHT attempts, at most one acknowledgement |
| `Scheduler.ConservedStep` | dht/dhtpeer/dhtpeer.go:1091-1276 | each step of accepting, routing or draining moves an envelope between places without losing or copying it |
| `Scheduler.OrderStep` | dht/dhtpeer/dhtpeer.go:1012-1019 | each step keeps both lanes in acceptance order per queue and ahead of what is still queued |
| `Scheduler.RunKeepsInv` | dht/dhtpeer/dhtpeer.go:994-1032 | conservation, order, attempt budget and slow-queue bound hold in every state of every run |
| `DeliveryOrder.PairOrder` | dht/dhtpeer/dhtpeer.go:994-1032 | what a pair has had delivered is a merge of its fast and slow lane, each a subsequence of its arrivals, even when concatenated keys collide |
| `DeliveryOrder.PairOrderWithoutSlow` | dht/dhtpeer/dhtpeer.go:1202-1251 | with nothing of the pair through the slow queue, deliveries followed by what waits equal the arrivals minus the drops |
| `DeliveryOrder.TotalOrder` | README.md:70 | deliveries are in acceptance order in every reachable state if and only if the pair's first DHT attempt cannot fail |
| `DeliveryOrder.Overtaken` | dht/dhtpeer/dhtpeer.go:1203-1216 | for every pair whose attempt may fail, a run in which a later envelope overtakes an earlier one |
| `DeliveryOrder.SlowQueueReservation` | dht/dhtpeer/dhtpeer.go:1207-1216 | slow-queue length plus routers between check and send never exceeds SlowQueueSize - 2 + N; with N at most 2 nobody blocks |
| `DeliveryOrder.SendNeverBlocks` | dht/dhtpeer/dhtpeer.go:1207-1216 | no reachable state has a blocked send if and only if N is at most 2 or nothing can fail |
| `DeliveryOrder.ThirdSendBlocks` | dht/dhtpeer/dhtpeer.go:1207-1235 | with three routers and a failing pair, a run that fills the queue and blocks the third send |
| `RoutingPeer.DhtPeer.AcceptEnvelope` | dht/dhtpeer/dhtpeer.go:994-1031 | queues the envelope behind what waits for its key if there is room and discards it otherwise; no other queue changes |
| `RoutingPeer.DhtPeer.Receive` | dht/dhtpeer/dhtpeer.go:1012-1013 | a worker takes the head of its own channel |
| `RoutingPeer.DhtPeer.RouteEnvelope` | dht/dhtpeer/dhtpeer.go:1091-1217 | which of the six branches is taken, stated on what the maps returned: no record, mailbox, own agent, delegate, relay, DHT, in that order; and on each whether the envelope is delivered, deferred to the slow queue or dropped with its cause, with one DHT attempt on the last branch only |
| `LocalDelivery.KnownTargetStaysLocal` | dht/dhtpeer/dhtpeer.go:1113-1200 | in every run, an envelope whose target the maps know when it is routed (or whose sender has no record) is settled or dropped at once, and from there on never tried over the DHT nor in the slow queue |
| `LocalDelivery.UnknownTargetIsTried` | dht/dhtpeer/dhtpeer.go:1202-1203 | in every run, routing makes its first and only attempt over the DHT exactly for a target nobody here knows |
| `RoutingPeer.DhtPeer.MoveToSlowQueue` | dht/dhtpeer/dhtpeer.go:1207-1217 | appends to the slow queue exactly when it is below SlowQueueSize - 1 |
| `RoutingPeer.DhtPeer.SendSlowEnvelope` | dht/dhtpeer/dhtpeer.go:1230-1251 | takes the head of the slow queue, tries it once, and settles or drops it |
| `RoutingPeer.PeerDelivers` | dht/dhtpeer/dhtpeer.go:994-1251 | an object changed only by the methods above keeps conservation, the attempt budget and the order of every pair |
| `PairQueues.CreationIsAtomic` | dht/dhtpeer/dhtpeer.go:994-1021 | every reachable state of the code that looks up and creates in two steps is one of the scheduler that does so in one, and every channel has exactly one reader; each if and only if no two addresses that can be live together end with one another |
| `PairQueues.SimulationStep` | dht/dhtpeer/dhtpeer.go:996-1031 | creating comes to opening a queue, pushing to accepting, receiving to taking the head of the worker's own channel; looking up, fetching, connecting and disconnecting come to nothing |
| `PairQueues.TwoStepDelivery` | dht/dhtpeer/dhtpeer.go:994-1032 | conservation, the attempt budget and the two-lane order of every pair hold of the two-step code |
| `PairQueues.RaceStrands` | dht/dhtpeer/dhtpeer.go:996-1010 | for any two such addresses, a run that leaves an envelope in a channel without reader or writer |
| `PairQueues.StrandedForGood` | dht/dhtpeer/dhtpeer.go:1006-1013 | such a channel keeps its contents, unread, in every continuation of the run |
| `PairQueues.ChannelForGood` | dht/dhtpeer/dhtpeer.go:996-1003 | without related addresses, a pair that has a channel keeps that channel for the rest of the run |
| `RecordLog.Store.SaveAgentRecord` | dht/dhtpeer/dhtpeer.go:460-476 | appends exactly one frame, or nothing for an empty encoding; a log that loads then loads to its frames and the new one |
| `RecordLog.Store.AddRelay` | dht/dhtpeer/dhtpeer.go:1820-1828 | map write and log append in one critical section |
| `RecordLog.Store.InitAgentRecordPersistentStorage` | dht/dhtpeer/dhtpeer.go:491-537 | the replay loop succeeds exactly when the log replays, leaves the replayed maps and counts the records |
| `RecordLog.ReplayAppend` | dht/dhtpeer/dhtpeer.go:504-536 | replaying an extended log is replaying the log and then entering the new record |
| `RecordLog.ReplaysWhenTaken` | dht/dhtpeer/dhtpeer.go:504-536 | the log replays if and only if it is made of whole frames, each a record whose peer key has an ID |
| `RecordLog.LastRecordWins` | dht/dhtpeer/dhtpeer.go:522-535 | the last record about an address is the one replay leaves, with the ID of its peer key |
| `Registry.CrashRecovery` | dht/dhtpeer/dhtpeer.go:1789-1828 | at every point of every run, concurrent registrations and restarts included, the log replays to exactly the relay map in memory, with sound records |
| `Registry.LookupSoundness` | dht/dhtpeer/dhtpeer.go:1590-1670 | a record served on any of the five branches is about the address asked for and passes PoR against its own peer key |
| `AddressRequests.AnswersAreRight` | dht/dhtpeer/dhtpeer.go:1599-1650 | in every run, every answer is settled by what the maps held at successive moments of that run: own record, else relay client, else mailbox client, else delegate client, else exactly what the DHT returned |
| `AddressRequests.RelayClientServed` | dht/dhtpeer/dhtpeer.go:1599-1623 | once a relay client is registered, every request made from then on is answered with a record from the relay map, restarts included |
| `AddressRequests.MailboxClientAnswered` | dht/dhtpeer/dhtpeer.go:1624-1626 | a mailbox client's record is served as soon as it is registered and no longer once removed |
| `DelegateClients.DelegateMapIsCurrent` | dht/dhtpeer/dhtpeer.go:933-935 | the delegate map lists an address exactly while a connection of it is alive, in every run, if and only if it has one connection at a time or nobody can register it here |
| `DelegateClients.LiveClientUnlisted` | dht/dhtpeer/dhtpeer.go:1036-1039 | for every admissible record, a run in which one of two connections of the address ends and the other is no longer listed |
| `Registry.PublicationOrder` | dht/dhtpeer/dhtpeer.go:1599-1607 | relay and delegate keys are always among the published records, and a relay or delegate hit never lacks a record |
| `Registry.ForwardedRecordAccepted` | dht/dhtpeer/dhtpeer.go:1070-1089 | which record a forwarded envelope carries: the own agent's, else the mailbox's, else the stored one; it passes the receiver's PoR check exactly when it names this node's key, and it does for the own agent, mailbox clients, and clients no relay client shares the address of |
| `RecordAgreement.StoredRecordAcceptable` | dht/dhtpeer/dhtpeer.go:1070-1089 | the stored record of an address is accepted by receivers in every reachable state if and only if no relay client can register the address through a peer of another key |
| `RecordAgreement.RelayRecordRejected` | dht/dhtpeer/dhtpeer.go:1816-1818 | for every such record, a run after which it is stored and receivers reject it |
| `RecordAgreement.RecordSurvivesRestart` | dht/dhtpeer/dhtpeer.go:1816-1828 | once the relay clients of an address are done, replay finds the record in memory in every run if and only if they register one at a time or have one record to register |
| `RecordAgreement.CrossedRegistrations` | dht/dhtpeer/dhtpeer.go:1816-1828 | for any two registrable records of an address, a run of two registrations after which memory holds one and the log replays to the other |
| `Registry.RunKeepsInv` | dht/dhtpeer/dhtpeer.go:1757-1828 | the registry invariant holds in every state of every run, restarts included |
| `Por.PorBindsAgentAndPeer` | dht/dhtnode/utils.go:40-111 | the check passes exactly for a record proved under its ledger's scheme, its own address and the peer key it names |
| `Por.PorErrorCodes` | dht/dhtnode/utils.go:40-111 | each error code is returned exactly when its requirement is the first one missed, an unsupported ledger included |
| `DhtLookup.LookupAddressDht` | dht/dhtpeer/dhtpeer.go:1367-1502 | goes on exactly while a round sees nobody and the deadline is ahead; succeeds if and only if the last round's first usable record has a key that denotes a peer, with that record and ID; failure carries an error; at most ceil(timeout/200 ms) + 1 rounds |
| `DhtLookup.AskProviders` | dht/dhtpeer/dhtpeer.go:1395-1480 | asks the providers of a round in turn and stops at the first usable record |
| `DhtLookup.FirstProvidersDecide` | dht/dhtpeer/dhtpeer.go:1482-1497 | the first round that returns providers, a usable record among them, is the last one if the retry before it came ahead of the deadline: the lookup does not give up early |
| `DhtLookup.DecisiveOnce` | dht/dhtpeer/dhtpeer.go:1393-1500 | only one round can be the last, so the number of rounds is determined |
| `DhtLookup.YieldsOnce` | dht/dhtpeer/dhtpeer.go:1467-1479 | a round hands over one record or none, never both |
| `Mailbox.MailboxIsBoundedFifo` | dht/dhtpeer/mailbox.go:65-120 | in every interleaving, unregister split in two: equal keys, a live session per address, and fetched followed by queued equals accepted, within the limit and addressed to the owner |
| `Mailbox.DeliveryIsAccepted` | dht/dhtpeer/mailbox.go:307-322 | in every run, a delivery to a registered address with room is accepted and queued last, and any other changes nothing |
| `Mailbox.FetchIsOldest` | dht/dhtpeer/mailbox.go:213-236 | in every run, a fetch that is written out takes the oldest accepted envelope not yet taken |
| `Mailbox.LeavingIsComplete` | dht/dhtpeer/mailbox.go:116-120 | a finished unregister leaves neither the address nor its session, and everything else |
| `Mailbox.MailboxServer.Register` | dht/dhtpeer/mailbox.go:76-80 | binds record, session and an empty queue |
| `Mailbox.MailboxServer.FindSession` | dht/dhtpeer/mailbox.go:100-107 | the address of a session, the first section of an unregister |
| `Mailbox.MailboxServer.Remove` | dht/dhtpeer/mailbox.go:116-120 | deletes record, session and queue, and nothing else |
| `Mailbox.MailboxServer.GetEnvelope` | dht/dhtpeer/mailbox.go:192-238 | returns the oldest envelope of the session's address, removes it only after a successful write, and changes nothing else |
| `Mailbox.MailboxServer.RouteEnvelope` | dht/dhtpeer/mailbox.go:299-323 | takes the envelope if and only if its address is registered and its queue below the limit, appends it then, and changes nothing else |
| `Mailbox.MailboxServer.IsAddrRegistered` | dht/dhtpeer/mailbox.go:325-330 | membership in the queue map |
| `Mailbox.MailboxServer.GetAgentRecord` | dht/dhtpeer/mailbox.go:332-339 | the record of a registered address |
| `Framing.LoadOfConcat` | dht/dhtpeer/dhtpeer.go:504-536 | loading any list of frames below 2^32 bytes returns it in order |
| `Framing.ConcatOfLoad` | dht/dhtpeer/dhtpeer.go:504-536 | whatever loads is exactly the encoding of what it loads to |
| `Framing.LoadOfPrefix` | dht/dhtpeer/dhtpeer.go:506-521 | a byte prefix loads if and only if the cut is on a frame boundary, and then yields exactly the frames before it |
| `Framing.ReadBytes` | utils/utils.go:734-761 | the result depends only on the bytes delivered, under every chunking and with read-ahead; consumed and dropped bytes are accounted for |
| `Framing.Reader.ReadFull` | utils/utils.go:739-758 | exactly n bytes when the stream has them, an error otherwise, none lost |
| `Framing.ReceiveOfFrame` | utils/utils.go:750-760 | a frame of at most 3 MiB is received exactly |
| `Framing.ReceiveSoleFrame` | utils/utils.go:734-806 | with one frame on the stream, the reader returns it and drops nothing |
| `Framing.Wire.WriteBytes` | utils/utils.go:764-806 | writes one frame, nothing for an empty message, and refuses oversized data |
| `Bytes.PadBeBytesOfBeNat` | utils/utils.go:300-309 | stripping leading zeros and padding back is the identity on fixed-width strings |
| `Der.Marshal` | utils/utils.go:323-329 | 8 to 72 bytes, a SEQUENCE whose one length octet covers the rest |
| `Der.MarshalOctets` | utils/utils.go:323-325 | R stands in the first INTEGER and S in the second, octet by octet |
| `Der.LengthOfParseLength` | utils/utils.go:343-346 | the reader accepts one encoding of each length, short or long |
| `Der.MagnitudeIsAbsolute` | utils/utils.go:343-348 | of a negative component only the absolute value is kept |
| `Der.LongComponentCut` | utils/utils.go:347-352 | of a component of 2^256 or more only the 32 most significant octets are kept |
| `Der.UnmarshalOfMarshal` | utils/utils.go:343-346 | reading inverts writing for all R, S below 2^256, whatever follows |
| `Der.IntegerContentUnique` | utils/utils.go:343-346 | the reader accepts exactly one encoding of each non-negative integer |
| `Der.StrDerStr` | utils/utils.go:311-353 | R\|\|S to DER and back is the identity on every 64-byte string |
| `Der.MarshalOfUnmarshal` | utils/utils.go:336-346 | a canonical input, judged by the reader alone (minimal non-negative contents below 2^256, nothing after S or after the SEQUENCE), is exactly what the writer produces for the R and S read |
| `Der.MarshalIsCanonical` | utils/utils.go:323-329 | whatever the writer produces is canonical in that sense |
| `Der.DerStrDer` | utils/utils.go:336-353 | DER to R\|\|S and back is the identity if and only if the input is canonical |
| `Der.DerToStrOfMarshal` | utils/utils.go:347-352 | canonical DER converts to the fixed-width R\|\|S whatever follows it |
| `Eip55.EncodeChecksumEip55` | utils/utils.go:588-608 | "0x" and the hexadecimal digits, upper case exactly at letters with hash digit 8 or more |
| `Eip55.EncodingDecidesEquality` | utils/utils.go:481-499 | folding case and decoding recovers the address, and equal strings mean equal addresses, for any hash |
| `Dialogue.HandleRegistration` | acn/utils.go:203-231 | reads one frame and answers it: a decoding error, an unexpected payload, or the PoR code of the record; registers exactly the record of a register frame that passes PoR, if the reply goes out |
| `Dialogue.HandleAeaAddressStream` | dht/common/handlers.go:129-176 | reads one frame and answers it: a decoding error, an unexpected payload, the record found, or the code of the failed lookup |
| `Dialogue.HandleAeaEnvelopeStream` | dht/common/handlers.go:56-126 | reads one frame and answers it: a decoding error, an unexpected payload, the PoR code, or the code of the delivery; delivers exactly the envelope of the frame, if it decodes and its record passes PoR |
| `Dialogue.HandleAcnMessageFromPipe` | aea/utils.go:32-98 | hands over exactly the envelope of an envelope frame and then answers success; queues exactly the statuses, silently; answers a decoding error or an unexpected payload otherwise; never reaches its default branch |
| `Dialogue.DecodeAcnMessage` | acn/utils.go:88-114 | without an error the type is aea_envelope or status, with its payload |
| `Dialogue.Ask` | acn/utils.go:376-460 | an initiator writes one frame and reads one |
| `Dialogue.SendStatus` | acn/utils.go:127-169 | writes one status frame, or none on a broken pipe |
| `Dialogue.SoleFrameArrives` | utils/utils.go:734-806 | a handler's reply is one frame on the wire and is received whole |
| `Dialogue.ExchangesAreFaithful` | acn/utils.go:313-399 | registration, lookup and delivery outcomes, and acknowledgements on a client pipe, reach the initiator exactly as the responder decided them |
| `Dialogue.StatusMeanings` | acn/utils.go:88-114 | what each status tells: on a client pipe success means an envelope that decodes; an unexpected payload means a misplaced message, a decoding error one that does not decode, silence a status |
| `Dialogue.ReplyRules` | protocols/acn/v1_0_0/acn.yaml:53-60 | replies follow the reply table if and only if the frame is not a lookup response, nor a status on a register or lookup stream |
| `Dialogue.TellsOneStatus` | aea/utils.go:62-97 | a status draws silence and any other frame exactly one status |
| `Dialogue.DialogueStops` | aea/utils.go:32-98 | two endpoints answering each other stop after exactly as many rounds as the frames weigh, each having heard every status owed to it |

## Left out

- Interruption inside a method of the `DhtPeer` classes: methods run one handler from start to end, and interleavings are the step relations that `Valid()` ties them to.
- AnnouncingPeer.DhtPeer.RegisterClient: a call in which `Wait` has nothing to wait for; with handlers in between it is `Publish` and then `FinishRegistration`, and waiting itself is a step of `Announcement`.
- The window inside `New` between replaying the log and setting the flag of a node with bootstrap peers (dht/dhtpeer/dhtpeer.go:396-409), and mailbox addresses, which the notification handler never scans.
- `Provide` itself: an address counts as announced once it is marked, which happens before the DHT call.
- Registry.CrashRecovery: covers `dhtAddresses` and the soundness of recovered records; when `agentRecords` is recovered too is `RecordAgreement.RecordSurvivesRestart`. Log writes succeed and a record's encoding fits a 32-bit size.
- RecordAgreement.RecordSurvivesRestart: addresses that only relay clients register; delegate clients write `agentRecords` and never the log.
- Mailbox.MailboxServer.GetAgentRecord: one call without interference between its two sections; the interleaved call is a step of `Registry`, where it may find no record.
- Mailbox.MailboxIsBoundedFifo: session ids are fresh, and the maps exist before the first request.
- `ReadBytesConn` and the agent pipe under short reads, which do not read in full; pipes in `Dialogue` carry whole frames.
- Matching a status to a particular delegate envelope: statuses carry no identifier.
- At-most-once transmission: a lost acknowledgement leads to one retransmission, so only attempts and acknowledgements are counted.
- The route-count gauge and other metrics, logging, options, shutdown, monitoring, TLS, libp2p, Kademlia and the DHT client: plumbing or foreign code.
- Error and log texts, except where a result carries one.
