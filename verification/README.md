# Verified model of the LAPS relay

LAPS relays carry Media over QUIC. This project models how relays peer with each other, how they rank
tracks, and how they keep their clients' subscriptions, and proves what these parts promise. Objects whose
methods change fields are classes here; each method is proved equal to a function on values, and the
promises are lemmas about those functions and about all runs built from them.

| files | what they model |
|---|---|
| `PeerSession`, `SnsRouting` | subscribe-node-sets (SNS) of a session; the relay's mark and sweep of its peer forwarding table |
| `SnsNetwork`, `SnsGrowth`, `SnsStream` | any number of relays exchanging SNS messages over FIFO control streams; runs in which sets only grow; the same messages as bytes in chunks |
| `Forwarding`, `Pipeline`, `StreamLife`, `Delivery`, `ThreeRelays` | the data plane of one relay; its runs; when its streams are mapped and closed and what is handed over; exactly-once delivery over the whole network; three relays in a line as an example |
| `NodeTable` | node tables and the choice of the best session |
| `AnnounceTable`, `Flooding` | the announce table with its prefix index; flooding of announces |
| `Ranking`, `RankingHistory`, `FlatList`, `TrackRanking`, `TopN` | value buckets, their contents by the updates alone, the flat list, the ranking object, Top-N selection |
| `ClientTables`, `ClientFanOut`, `ClientManager` | client subscribe tables and teardown; whom the handlers serve; the callbacks |
| `Framing`, `Codecs`, `NodeCodec`, `MessageLayout`, `WireMessages`, `DataHeaders`, `Bytes`, `Ordered` | control framing, message bodies and their layout, whole messages, data header, big-endian numbers, ordered iteration |

Conventions:

- A hash stands for what was hashed; hashes are free of collisions.
- Session ids are nonzero and a reconnect is a new session. Data context and stream ids come from a counter
  of the transport and are fresh. Random marks (`update_ref`) are not already in the row they mark.
- The transport, threads, locks, timers, logging and configuration are represented by fresh ids, FIFO
  channels and a tick given to each call.
- A map is walked in increasing key order where the order matters; where it does not, the order is free.
- `std::ranges::sort` is represented by what it establishes: the unique line ordered by the comparator.

Where the code and its documentation disagree, the model follows the code:

- `docs/track-ranking.md:198-203` puts a track whose value fell at the bottom of its new bucket, with the
  number `2^64-1 - n`; the code numbers it `2^63-1 - n`, below every other number, so it goes to the front
  (`Ranking.FallenRanksFirst`).
- The comment at `src/peering/info_base.cc:312-315` describes a lexicographic choice of the best session; the
  code compares `len > || srtt >`. `NodeTable.BestIsMinimalIff` says exactly when the two agree.
- `InfoBase::AddNode` documents its result as "updated as best"; it may report an update and change nothing
  (`NodeTable.UpdateReportedIff`).
- `RemoveAnnounce` empties the prefix index of a name although another source still announces it
  (`AnnounceTable.DeleteKeepsCompleteIff`).
- The flat list misses a track that joins an existing bucket without a rebuild (`FlatList.CurrentIff`).
- The SNS sweep removes with the egress session's id as the ingress key, so it withdraws only from the
  ingress session itself (`SnsRouting.SweepWithdrawsIff`); `ThreeRelays.StaleRowExample` is a run where a
  row stays at the far end.

## Model

| member | source | states |
|---|---|---|
| Sessions.PeerSession.AddPeerSnsSourceNode | src/peering/peer_session.cc:79-100 | a node joins the set of an ingress SNS: a context only for the first node, an advertise of the whole set only for a new node; the new state is given outright |
| Sessions.PeerSession.AddSubscribeSourceNode | src/peering/peer_session.cc:102-121 | the same for the set of a track's local subscribers |
| Sessions.PeerSession.RemoveSubscribeSourceNode | src/peering/peer_session.cc:123-146 | the state after one node is taken out, given by the function of which `SubLeaves` says what it does |
| Sessions.PeerSession.RemovePeerSnsSourceNode | src/peering/peer_session.cc:148-179 | node 0 withdraws the whole set; else one node is taken out |
| Sessions.PeerSession.Send | src/peering/peer_session.cc:205-218 | nothing is put on the stream of a session that is not connected |
| Sessions.AddPeerKeeps | src/peering/peer_session.cc:79-100 | nonzero ids of their own for every set, and agreement between the sets held and those the far end replays, survive |
| Sessions.AddSubKeeps | src/peering/peer_session.cc:102-121 | the same, for local subscribers |
| Sessions.RemoveSubKeeps | src/peering/peer_session.cc:123-146 | the same: the far end's set stays at least as large |
| Sessions.RemovePeerKeeps | src/peering/peer_session.cc:148-179 | the same, for the removal of a whole set |
| Sessions.RemovePeerNodeIff | src/peering/peer_session.cc:160-176 | removing one node keeps agreement if and only if it was not in the set or was its last |
| Sessions.LiveIdsAgree | src/peering/peer_session.cc:79-179 | the ids live at the far end are exactly those of the sets held here |
| Sessions.SubJoins | src/peering/peer_session.cc:102-121 | a node that joins the set of a track: that set alone grows, by that node alone, under its id or the next fresh one; on a connected session the whole set is told exactly when the node is new |
| Sessions.SubLeaves | src/peering/peer_session.cc:123-146 | a node that leaves: that set alone loses that node alone and keeps its id; it is given up, and withdrawn with nothing else sent, exactly when no node is left |
| Sessions.PeerJoins | src/peering/peer_session.cc:79-100 | the same as a join, for the set of an ingress SNS |
| Sessions.PeerLeaves | src/peering/peer_session.cc:148-179 | the same as a leave, where node 0 is every node |
| Sessions.SetsAreHistory | src/peering/peer_session.cc:79-179 | over every run of a session each set holds exactly the nodes whose last operation was a join, and none is held without a node |
| Sessions.WithdrawnRetires | src/peering/peer_session.cc:155-158 | the id of a set that is removed is in use no more, and a far end that has read all does not have it |
| SnsRouting.PeerManager.SnsAdvertised | src/peering/peer_manager.cc:975-1067 | an advertise marks, sweeps and leaves exactly the state of `OnAdvertise`, on the session objects too |
| SnsRouting.PeerManager.SnsWithdrawn | src/peering/peer_manager.cc:958-973 | the loop of a withdraw over the row leaves exactly the state of `OnWithdraw`, which `WithdrawnEgress` and `WithdrawFrame` describe |
| SnsRouting.PeerManager.SweepRow | src/peering/peer_manager.cc:1046-1065 | the sweep as the code does it, with the egress session's id as the key |
| SnsRouting.AdvertiseRow | src/peering/peer_manager.cc:975-1067 | mark and sweep is a pure function: whatever the row was, it ends with one egress for each best session of a listed node, plus 0 exactly when the relay is listed, and without streams |
| SnsRouting.AdvertiseSets | src/peering/peer_manager.cc:985-1044 | each such session then holds every node reached through it, under the id the row names |
| SnsRouting.AdvertiseKeepsCoherent | src/peering/peer_manager.cc:975-1067 | every live egress other than 0 and the ingress is backed by a set with the row's id, after an advertise and its sweep |
| SnsRouting.WithdrawKeepsCoherent | src/peering/peer_manager.cc:958-973 | the same after a withdraw |
| SnsRouting.CoherentIds | src/peering/peer_session.cc:84-99 | the row's egress id is the nonzero id of the session's set |
| SnsRouting.AdvertiseKeepsIds | src/peering/peer_manager.cc:975-1067 | while a row keeps an egress, the id used there never changes |
| SnsRouting.SweepWithdrawsIff | src/peering/peer_manager.cc:1046-1065 | a swept egress is withdrawn from its session if and only if it is the ingress session |
| SnsRouting.SweptSession | src/peering/peer_manager.cc:1046-1065 | the session of a swept egress loses the set filed under its own id and the SNS id, if it has one, and nothing else |
| SnsRouting.AdvertiseOthers | src/peering/peer_manager.cc:975-1067 | a session that is an egress of the row neither before nor after an advertise is not touched |
| SnsRouting.WithdrawnEgress | src/peering/peer_manager.cc:958-973 | a withdraw makes each egress session of the row give up its set, and that alone: a connected one sends the withdraw of the set's id and nothing else, and the far end is left without the set |
| SnsRouting.WithdrawFrame | src/peering/peer_manager.cc:958-973 | the row is gone; other rows, and sessions outside the row, are as before |
| SnsNetwork.StepKeeps | src/peering/peer_manager.cc:952-1067 | every step of a network of relays (subscribes, best session changes, lost connections with the purge of their ingress rows, messages read) keeps wiring, session agreement, coherence, and on connected sessions the match of rows with sets told |
| SnsNetwork.Agreement | src/peering/peer_session.cc:79-179 | over every run: a receiver that has read everything on a session connected at both ends has rows at exactly the sender's ids, and was told sets that contain the sender's, equal ones for sets from peers |
| SnsNetwork.ReachedCoherent | src/peering/peer_manager.cc:958-1067 | in every reachable state each live egress of a row has the session's set with that nonzero id |
| SnsNetwork.StepKeepsIds | src/peering/peer_manager.cc:952-1067 | whatever step the network takes, an egress that a row keeps keeps its id |
| SnsNetwork.RunKeepsIds | src/peering/peer_manager.cc:952-1067 | so it is over every run that keeps the egress |
| SnsNetwork.SweptStaysTold | src/peering/peer_manager.cc:1046-1065 | a swept egress other than the ingress keeps its set, and once the far end of the connected session has read everything it still has the row |
| SnsNetwork.PurgedStaysTold | src/peering/info_base.cc:67-80 | a lost connection purges the ingress rows of its session, but the sets of their egresses stay, and the far ends keep their rows |
| SnsNetwork.WithdrawGoesOn | src/peering/peer_manager.cc:958-973 | a withdraw that a relay reads leaves on every egress session of its row, once, and the set is given up there |
| SnsNetwork.WithdrawReachesFar | src/peering/peer_manager.cc:958-973 | and for good: in every state a run reaches from there, the far end of such an egress on a connected session has no row for the set once it has read everything |
| SnsNetwork.UnsubscribeReachesFar | src/peering/peer_session.cc:133-142 | the same for the last local subscriber of a track that leaves |
| SnsGrowth.GrowRow | src/peering/peer_manager.cc:975-1046 | a growing advertise leaves a row that partitions the ingress set over its egress sessions |
| SnsGrowth.RowSplitsIff | src/peering/peer_manager.cc:975-1046 | whatever went before, an advertise leaves a row that partitions the ingress set if and only if no egress session of a listed node still holds a node that leaves elsewhere |
| SnsGrowth.ServedTwice | src/peering/peer_manager.cc:985-1044 | otherwise a listed node is in the sets of two egresses |
| SnsGrowth.RerouteServesTwice | src/peering/peer_manager.cc:985-1044 | so it is at any relay told of two nodes behind one session that changes its route to one of them and is told again |
| SnsGrowth.GrowStepKeeps | src/peering/peer_manager.cc:975-1046 | growing runs keep every row of every relay such a partition, and all messages growing advertises |
| SnsGrowth.SettledInv | src/peering/peer_manager.cc:975-1046 | so it is in every state a growing run reaches with all control messages read |
| SnsStream.ChunksGiveMessages | src/peering/peer_session.cc:354-483 | SNS messages as bytes, in any chunks, reach the far end in order, and leave it the sets they should |
| Delivery.SettledPart | src/peering/peer_manager.cc:975-1046 | the far end of an egress was told exactly the part of the ingress set behind it |
| Delivery.NodeRoutedOn | src/peering/peer_manager.cc:395-399 | where routes shorten distances no node of an ingress set leaves by the session it came from |
| Delivery.CopyOwes | src/peering/peer_manager.cc:431-464 | the copy sent to one egress owes exactly the receipts of the nodes behind it |
| Delivery.CopyIsSent | src/peering/peer_manager.cc:431-464 | a copy of the network model is what the data plane enqueues on that session, for any stream and whatever other streams the row carries |
| Delivery.NothingElseSent | src/peering/peer_manager.cc:395-399 | the data plane puts nothing on the other sessions |
| Delivery.ReceiptIsGiven | src/peering/peer_manager.cc:402-427 | a receipt of the network model is what the data plane gives the client manager |
| Delivery.LandConserves | src/peering/peer_manager.cc:387-466 | receipts given plus receipts owed stay the same whichever stream lands next |
| Delivery.ExactlyOnce | src/peering/peer_manager.cc:395-466 | a stream entering with set T is handed, once all is landed, to the client manager of each subscribing relay of T exactly once and of no other, payload unchanged |
| Delivery.AllLanded | src/peering/peer_manager.cc:395-466 | the same for any number of streams at once, in any order of landings |
| Delivery.LandingsBounded | src/peering/peer_manager.cc:395-466 | no run has more landings than the distances allow |
| ThreeRelays.ReadyExample | src/peering/peer_manager.cc:975-1046 | the hypotheses of the delivery theorem can be met: three relays and one subscriber reach a settled state by a run |
| ThreeRelays.MayEnter | src/peering/peer_manager.cc:387-399 | a stream with the advertised id may then enter at the middle relay |
| ThreeRelays.FlightExample | src/peering/peer_manager.cc:395-466 | it is forwarded with another id by one hop, and given to the client manager of the last relay once |
| ThreeRelays.LostReached | src/peering/peer_manager.cc:952-1067 | a run in which the middle relay loses its route to the subscriber |
| ThreeRelays.StaleRowExample | src/peering/peer_manager.cc:1046-1065 | the next advertise then sweeps the egress, but its set and the row of the last relay stay |
| Forwarding.Forwarder.ForwardPeerData | src/peering/peer_manager.cc:387-473 | the fan-out loop over a row, with its shared buffer, does to every session and to the client manager what the pointwise description says |
| Forwarding.Forwarder.ForwardTo | src/peering/peer_manager.cc:431-464 | one pass: the id rewritten where the bytes carry one, a stream created or found, bytes of unknown streams left out |
| Forwarding.Forwarder.ProcessReceivedData | src/peering/peer_session.cc:485-529 | the first bytes of a stream give its header; later bytes use it |
| Forwarding.Forwarder.CloseStream | src/peering/peer_manager.cc:1347-1374 | the closing loop does to every session what the pointwise description says, of which `CloseEnds` says what it is, and tells the client manager once when it is an egress |
| Forwarding.RewriteKeepsHeader | src/peering/peer_manager.cc:431-435 | rewriting bytes 2 to 5 changes only the SNS id a receiver reads |
| Pipeline.ReceivedKeeps | src/peering/peer_manager.cc:387-466 | a chunk keeps every egress stream faithful to its ingress stream |
| Pipeline.SnsKeeps | src/peering/peer_manager.cc:952-1067 | an SNS update in mid-stream does too |
| Pipeline.CloseKeeps | src/peering/peer_manager.cc:1347-1374 | a close in mid-stream does too |
| Pipeline.EgressFidelity | src/peering/peer_manager.cc:387-466 | over every run, with best sessions, subscribes and connections changing in mid-stream, each egress stream carries a prefix of its ingress stream with only the SNS id rewritten |
| Pipeline.EgressComplete | src/peering/peer_manager.cc:441-464 | while the row maps the stream and the session is connected nothing is missing |
| Pipeline.ClientFidelity | src/peering/peer_manager.cc:402-427 | a client manager that listened from the start has exactly the payload |
| Pipeline.DatagramOnce | src/peering/peer_manager.cc:431-464 | a datagram reaches each connected egress once, with only the SNS id changed |
| StreamLife.MapsStep | src/peering/peer_manager.cc:441-454 | an egress stream is mapped exactly from the first bytes of its ingress stream, at an egress of the row these name, until the stream is closed, its row updated or withdrawn, or its session lost |
| StreamLife.StreamGoesWhole | src/peering/peer_manager.cc:387-466 | from its first bytes on and whatever else happens, a stream that nothing ends goes to every egress of its row as one open stream, and on a connected session with every byte received |
| StreamLife.CloseEnds | src/peering/peer_manager.cc:1347-1374 | a close closes the egress streams that the row mapped from the closed stream; every other stream, and all else of the session, is as before |
| StreamLife.OpenStep | src/peering/peer_manager.cc:1360-1372 | nothing but that close closes an egress stream, and its origin and id never change |
| StreamLife.DownIsSilent | src/peering/peer_session.cc:191-203 | a session that has lost its connection does not get it back and is given nothing more |
| StreamLife.MappedIsOpen | src/peering/peer_manager.cc:441-454 | over every run a stream that a row maps is open |
| StreamLife.EndedClosedIff | src/peering/peer_manager.cc:975-1067 | a mapped stream whose mapping ends is closed, then and for ever after, if and only if a close ended it: an update of the row or a lost session leaves it open for good |
| StreamLife.DatagramHeard | src/peering/peer_manager.cc:402-428 | the payload of a datagram goes to the client manager once when it listens to the track, and else not |
| StreamLife.RunHeard | src/peering/peer_manager.cc:402-428 | over every run the client manager is given, of each stream, exactly the payload of the chunks that came while it listened, in order |
| StreamLife.RunGramsHeard | src/peering/peer_manager.cc:423-428 | and the payloads of exactly the datagrams that came while it listened, in order |
| StreamLife.RunGramsSent | src/peering/peer_manager.cc:431-464 | and each session exactly the datagrams that came while it was a connected egress of their row, in order, with the id rewritten |
| StreamLife.HandedOver | src/peering/peer_manager.cc:387-466 | the three together, from an idle relay |
| Pipeline.HopsFaithful | src/peering/peer_manager.cc:387-466 | over a chain of relays, each in a state that some run reaches and each having received a prefix of what the one before sent, track, priority, ttl and a prefix of the payload survive |
| Pipeline.ClientPastHops | src/peering/peer_manager.cc:387-466 | a client manager past the last hop has a prefix of the payload that the first relay received |
| DataHeaders.DecodeEncode | src/peering/messages/data_header.cc:48-141 | reading a written header gives it back and where the payload begins |
| DataHeaders.RewriteIsReencode | src/peering/messages/data_header.cc:94-141 | rewriting in place equals encoding the header with the other id |
| DataHeaders.DataHeader.Serialize | src/peering/messages/data_header.cc:94-152 | appends field by field and patches the length byte; a header length that is set must not be below the real one |
| DataHeaders.DataHeader.Deserialize | src/peering/messages/data_header.cc:48-92 | reads along a cursor; empty and short spans as the source answers them |
| DataHeaders.DataHeader.SizeBytes | src/peering/messages/data_header.cc:18-41 | the length byte when set, else the length of the header's kind |
| NodeTable.SumSrtt | src/peering/messages/node_info.cc:8-16 | the sum of the path modulo 2^64 |
| NodeTable.ScanCandidates | src/peering/info_base.cc:287-327 | the scan in increasing session id, starting from the session in use |
| NodeTable.ScanUnbeaten | src/peering/info_base.cc:287-327 | the choice is the candidate of the last switch and no candidate scanned after it beats it |
| NodeTable.BestIsMinimalIff | src/peering/info_base.cc:287-327 | the choice is minimal by (hops, total sRTT) if and only if some minimal candidate has no candidate with a larger session id and a smaller sRTT |
| NodeTable.MonotoneBest | src/peering/info_base.cc:287-327 | when a shorter path never has larger sRTT the choice is minimal, ties keep the session in use, and an update is reported exactly when it changes |
| NodeTable.LongerPathChosen | src/peering/info_base.cc:318-319 | a case where the longer path wins |
| NodeTable.SwitchesIffReports | src/peering/info_base.cc:281-345 | an update is reported if and only if there was no session in use or some candidate would replace it |
| NodeTable.UpdateReportedIff | src/peering/info_base.cc:281-345 | a reported update means a new choice, or a candidate with a smaller session id that would replace the session in use: exactly then does the scan leave it and come back |
| NodeTable.UpdateWithoutChange | src/peering/info_base.cc:281-327 | a case where an update is reported and the choice is as before |
| NodeTable.InfoBase.DumpBestNodes | src/peering/info_base.cc:332-343 | after a switch, the best session of every node is looked up, and found |
| NodeTable.InfoBase.SelectBestNode | src/peering/info_base.cc:281-345 | writes the choice, every lookup succeeding |
| NodeTable.InfoBase.AddNode | src/peering/info_base.cc:8-24 | the tables after an add, still consistent; the update reported exactly for a new node or a candidate that would replace the session in use |
| NodeTable.InfoBase.RemoveNode | src/peering/info_base.cc:26-45 | the tables after a remove, still consistent |
| NodeTable.InfoBase.PurgePeerSessionInfo | src/peering/info_base.cc:47-81 | the tables after a purge, still consistent, and the forwarding rows of the session gone |
| NodeTable.PurgeKeeps | src/peering/info_base.cc:47-81 | nothing mentions a purged session, other sessions keep their nodes |
| NodeTable.TablesAlwaysOk | src/peering/info_base.cc:8-81 | after any sequence of adds, removes and purges: exact inverse index without empty sets, a best session exactly for known nodes, and minimal where candidates are monotone |
| NodeTable.NodesAreHistory | src/peering/info_base.cc:8-81 | after any such sequence the table stores for every node and session exactly the path received last and not taken back |
| NodeTable.OthersKeepBest | src/peering/info_base.cc:8-81 | an event changes the best session of no node but the one it names, or, for a purge, those of the session |
| AnnounceTable.AnnounceBase.PrefixHashNamespaceTuples | src/peering/info_base.cc:152-164 | one hash for each nonempty prefix |
| AnnounceTable.AnnounceBase.AddAnnounce | src/peering/info_base.cc:166-189 | a new source is entered and indexed, a known one changes nothing |
| AnnounceTable.AnnounceBase.RemoveAnnounce | src/peering/info_base.cc:191-231 | the source leaves the table, the name leaves every prefix |
| AnnounceTable.AnnounceBase.GetAnnounceIds | src/peering/info_base.cc:233-268 | the sources of the full name, or of the names under the prefix |
| AnnounceTable.DeleteKeepsCompleteIff | src/peering/info_base.cc:191-231 | the index stays complete if and only if no other source announces the name or it has no prefix |
| AnnounceTable.IdsAreScan | src/peering/info_base.cc:233-268 | with a complete index the lookup is a linear scan of the table |
| AnnounceTable.IdsSound | src/peering/info_base.cc:233-268 | every id returned announces a match, whatever the number of sources |
| AnnounceTable.AlwaysSound | src/peering/info_base.cc:166-231 | the index lists only announced names under their prefixes, after any run |
| AnnounceTable.OwnedComplete | src/peering/info_base.cc:166-231 | while each name has one source the index is complete after any run |
| AnnounceTable.SharedNameLost | src/peering/info_base.cc:200-216 | a case where a name still announced is no longer found |
| AnnounceTable.TableIsHistory | src/peering/info_base.cc:166-231 | after any run a name has exactly the sources whose last event was an advert, each with its first announce since it last withdrew |
| AnnounceTable.FoundIff | src/peering/info_base.cc:166-231 | after any run a name is found under a prefix if and only if the last event about it, repeated adverts of a known source aside, was an advert |
| Flooding.AnnounceRelay.AnnounceInfoReceived | src/peering/peer_manager.cc:227-262 | passes on what was new, on every connected session but the one it came from |
| Flooding.AnnounceRelay.ClientAnnounce | src/peering/peer_manager.cc:748-793 | a client's announce goes out on every connected session |
| Flooding.PassedIff | src/peering/peer_manager.cc:227-262 | by the events before: an announce is passed on exactly when its source did not stand for the name, a withdrawal exactly when the name can still be found under its namespace |
| Flooding.DeliverKeeps | src/peering/peer_manager.cc:243-262 | what a relay has, its neighbours have or will be told; no key is passed on twice |
| Flooding.PassesOnce | src/peering/peer_manager.cc:243-262 | each relay passes on a name and source at most once in any advert-only run |
| Flooding.DeliverLowers | src/peering/peer_manager.cc:243-262 | each delivery lowers (entries lacking, messages under way) in lexicographic order |
| Flooding.FloodingEnds | src/peering/peer_manager.cc:243-262 | no run of deliveries is longer than the work left |
| Flooding.Converges | src/peering/peer_manager.cc:227-262 | once nothing is under way every relay joined to one that has an announce has it, over any graph |
| Ranking.UpdateKeeps | src/track_ranking.h:44-109 | one value per track and property, no empty bucket, distinct sequence numbers, the updated track present, nothing inactive left |
| Ranking.EntryStaysIff | src/track_ranking.h:92-109 | every other entry stays, as it was, if and only if its tick is in the future or no more than the age ago |
| Ranking.EntryUpdated | src/track_ranking.h:44-77 | the updated track has the new value alone, with the new tick; it keeps its number there, or takes one below or above all others |
| Ranking.DequesRefined | src/track_ranking.h:42-77 | one update of the numbered buckets is one update of plain deques: from a higher value to the front, else to the back, refreshes and removals keep order |
| Ranking.RunRefines | src/track_ranking.h:42-109 | the same over any run of updates, each with the inactive age then in force |
| Ranking.FallenRanksFirst | src/track_ranking.h:70-73 | a track whose value fell is first of its new bucket, and last, as documented, if and only if it is alone there |
| Ranking.LineOnly | src/track_ranking.h:120-129 | the comparator's order has one line only |
| RankingHistory.RankingIsHistory | src/track_ranking.h:35-109 | over any run of updates a track is ranked for a property at exactly the value of its last update, with the tick of that, until an update comes by which it is inactive |
| RankingHistory.ConnIsLast | src/track_ranking.h:79-80 | and listed with the connection of its last update |
| FlatList.FlattenMembers | src/track_ranking.h:111-132 | a rebuilt list holds exactly the property's tracks |
| FlatList.FlattenOrder | src/track_ranking.h:111-132 | ordered by value descending, then sequence number ascending |
| FlatList.FlattenOnce | src/track_ranking.h:111-132 | no track twice |
| FlatList.RunListedOnce | src/track_ranking.h:111-143 | over any run of updates, each with the inactive age then in force, rebuilt or refreshed in place, the list never holds a track twice |
| FlatList.InPlaceIsRebuild | src/track_ranking.h:134-143 | refreshing a track in its bucket gives in place what a rebuild would give |
| FlatList.CurrentIff | src/track_ranking.h:54-143 | a current list stays current if and only if the update rebuilds or the track was in its bucket |
| FlatList.CurrentWhen | src/track_ranking.h:54-143 | in terms of the entries: it stays current if and only if the track has the value already, or nobody has it, or the track leaves another value to others, or some entry is too old |
| FlatList.SecondTrackUnlisted | src/track_ranking.h:64-83 | a case of two tracks with one value where the second is not listed |
| TrackRankings.SeqWordExact | src/track_ranking.h:70-73 | with fewer than 2^63 updates the 64-bit words are the numbers the order relies on |
| TrackRankings.TrackRanking.LeaveValues | src/track_ranking.h:44-62 | the loop that takes a track out of its other values |
| TrackRankings.TrackRanking.Sweep | src/track_ranking.h:92-109 | the sweep of inactive tracks |
| TrackRankings.TrackRanking.Rebuild | src/track_ranking.h:111-132 | the rebuild from the highest value down |
| TrackRankings.TrackRanking.RefreshEntry | src/track_ranking.h:134-143 | the first entry of the track refreshed |
| TrackRankings.TrackRanking.UpdateValue | src/track_ranking.h:35-143 | the whole new state of an update |
| TopN.NamespaceHandler.UpdateTrackRanking | src/publish_namespace_handler.cc:85-190 | ticks, selection and pausing; nothing without a property |
| TopN.SelectedIff | src/publish_namespace_handler.cc:107-155 | after any run of ranking updates the selected tracks are exactly the first N ranked ones that are published and not the subscriber's own |
| TopN.SelectedCount | src/publish_namespace_handler.cc:107-155 | after any such run as many are selected as may be, up to N, and none outside the list |
| TopN.AtMostN | src/publish_namespace_handler.cc:107-190 | at most N tracks are going and none selected is paused, after every update |
| TopN.ReselectedTrack | src/publish_namespace_handler.cc:107-190 | track by track: opened exactly when selected, paused and not open yet; going when selected, paused when not and there are too many; else as before |
| TopN.TickedOnce | src/publish_namespace_handler.cc:93-105 | a published track that is listed once takes the listed tick |
| TopN.LeftOutNoBetter | src/track_ranking.h:111-163 | after a rebuild no eligible track left out has a higher value than a selected one |
| ClientManagers.SubscribeTrackHandler.AddSubscriber | src/subscribe_handler.cc:72-103 | one more subscriber resumes the handler, a duplicate changes nothing |
| ClientManagers.SubscribeTrackHandler.RemoveSubscriber | src/subscribe_handler.cc:105-119 | the last subscriber pauses the handler |
| ClientManagers.SubscribeTrackHandler.AddSubscribeNamespace | src/subscribe_handler.cc:38-56 | the same for a namespace subscriber |
| ClientManagers.SubscribeTrackHandler.RemoveSubscribeNamespace | src/subscribe_handler.cc:58-70 | no namespace is kept without a connection |
| ClientManagers.ClientManager.SubscribeReceived | src/client_manager.cc:824-875 | duplicates are refused, others processed |
| ClientManagers.ClientManager.ProcessSubscribe | src/client_manager.cc:1231-1366 | the three indexes, every handler of the track, and a handler that serves the subscriber at every matching announcer |
| ClientManagers.ClientManager.UnsubscribeReceived | src/client_manager.cc:673-726 | the subscription leaves all three indexes and every fan-out |
| ClientManagers.ClientManager.RemoveOrPausePublisherSubscribe | src/client_manager.cc:728-777 | unused handlers are paused or dropped, unless peers want the track |
| ClientManagers.ClientManager.SubscribeNamespaceReceived | src/client_manager.cc:389-487 | every handler of a track under the namespace serves it, a client's own left out unless allowed, and those tracks are offered to it |
| ClientManagers.ClientManager.UnsubscribeNamespaceReceived | src/client_manager.cc:491-534 | every matching handler loses the namespace and is paused or dropped if nothing is left |
| ClientManagers.ClientManager.PublishReceived | src/client_manager.cc:257-387 | the track offered to the namespace subscribers it falls under, and a new handler with every subscriber and matching namespace, paused when there is none |
| ClientManagers.ClientManager.PublishNamespaceReceived | src/client_manager.cc:139-255 | the relay subscribes to the announcer for every matching track with subscribers |
| ClientManagers.ClientManager.PurgePublishState | src/client_manager.cc:108-137 | nothing published by the connection is left |
| ClientManagers.ClientManager.PublishNamespaceDoneReceived | src/client_manager.cc:39-106 | the namespace and the handlers made for it go |
| ClientManagers.ClientManager.PublishDoneReceived | src/client_manager.cc:601-671 | the handler goes, and with the last one of its track every subscription to it |
| ClientManagers.ClientManager.PeerUnsubscribeTrack | src/client_manager.cc:1368-1379 | every handler of the track loses the peering side as a subscriber |
| ClientManagers.ClientManager.ConnectionStatusChanged | src/client_manager.cc:537-588 | after a close the tables agree and nothing in them, handlers' namespaces included, mentions the connection |
| ClientTables.SubscribeKeeps | src/client_manager.cc:824-875 | a subscribe that is a duplicate or has an unused request id keeps the three indexes views of one relation and fan-out to subscribers only |
| ClientTables.SubscribeKeepsIff | src/client_manager.cc:1270-1294 | a client's subscribe keeps this if and only if it is refused as a duplicate or its request id is not in use |
| ClientTables.AllAnnouncersServe | src/client_manager.cc:1308-1366 | whatever the order of announcers, every matching one and every handler of the track serves the subscriber |
| ClientTables.UnsubscribeKeeps | src/client_manager.cc:673-726 | so does an unsubscribe |
| ClientTables.NamespacePublishKeeps | src/client_manager.cc:149-196 | so does a namespace publish |
| ClientTables.PublishDoneEnds | src/client_manager.cc:601-671 | a publish that is done ends the subscriptions to its track, all of them and no others, exactly when nobody else publishes it and subscribes are not kept without a publisher |
| ClientTables.ActiveIsSubscribers | src/client_manager.cc:185-192 | the fan-out of a handler made for an announcer is exactly the track's subscribers |
| ClientTables.ClosedIsForgotten | src/client_manager.cc:537-588 | nothing in the six tables mentions a closed connection, and they agree |
| ClientTables.AlwaysNamespacesOk | src/client_manager.cc:39-587 | over every run a namespace subscriber that a handler serves, other than its publisher, matches its track and is registered, where a prefix of a namespace matches it |
| ClientTables.CloseForgets | src/client_manager.cc:537-588 | after any run a connection that closes is forgotten in the six tables |
| ClientTables.LeftBehindIff | src/client_manager.cc:491-534 | the matchers decide it: a namespace taken on as a prefix is left behind by a close if and only if it does not match |
| ClientTables.AlwaysAgree | src/client_manager.cc:39-875 | index and fan-out agreement over every run with fresh request ids, publishers and namespaces that are done and closes included |
| ClientTables.ReusedRequestDisagrees | src/client_manager.cc:1284-1294 | a case where a request id used for a second track breaks the agreement |
| ClientFanOut.PublishServes | src/client_manager.cc:343-386 | the handler of a publish serves exactly the current subscribers of the track and the registered namespace subscribers that match, and is paused exactly when no peer and none of them wants it |
| ClientFanOut.NamespacePublishHandler | src/client_manager.cc:149-196 | after a namespace publish the announcer has a handler, serving every current subscriber, for each matching track with one that was not asked for before; every other handler is as it was |
| ClientFanOut.NamespacePublishListed | src/client_manager.cc:163-171 | and these tracks are listed for the namespace |
| ClientFanOut.ProcessedHandler | src/client_manager.cc:1291-1341 | a subscribe adds the subscriber to every handler of the track and resumes those that publishers started; a new handler is made for it alone |
| ClientFanOut.UnsubscribeHandler | src/client_manager.cc:673-777 | an unsubscribe takes the connection out of the handlers of the track; an unused one is paused, and dropped exactly when no peer wants the track and the relay made it |
| ClientFanOut.PeerUnsubscribeHandler | src/client_manager.cc:1368-1379 | the handlers of the track lose the peering side, and an unused one is paused |
| ClientFanOut.NamespaceSubscribeHandler | src/client_manager.cc:450-486 | a namespace subscribe registers the connection, and every handler of a track under the namespace serves it, resumed if it did not before; a client's own are left out unless allowed |
| ClientFanOut.NamespaceUnsubscribeHandler | src/client_manager.cc:513-527 | a matching handler loses the namespace alone, and is paused or dropped exactly when nothing is left and no peer wants the track |
| ClientFanOut.NamespaceUnsubscribeOwn | src/client_manager.cc:514-527 | a client's own handler keeps its namespaces and is paused or dropped only with others of its track |
| ClientFanOut.NamespaceUnsubscribeOther | src/client_manager.cc:513-527 | a handler of another namespace is left alone |
| ClientFanOut.OfferedEitherWay | src/client_manager.cc:277-308 | a track is offered to a namespace subscriber whichever comes first, the publish or the subscribe |
| ClientFanOut.EitherOrderIff | src/client_manager.cc:357-370 | the handler serves a namespace subscriber in either order if and only if the two ways to match agree on it |
| ClientFanOut.NamespaceDoneExact | src/client_manager.cc:39-106 | a namespace that is done is not listed, and exactly the handlers listed for it are gone |
| ClientFanOut.PublishDoneExact | src/client_manager.cc:601-671 | the handler of a publish that is done is gone; while others publish the track nothing else changes |
| ClientFanOut.RelationStep | src/client_manager.cc:39-875 | the subscriptions after any event: those before that it does not end, and the one an accepted subscribe brings |
| ClientFanOut.EventServesIff | src/client_manager.cc:39-875 | whatever the event, a handler that serves every current subscriber goes on doing so, and a new or replaced one does, if and only if it is not one that a subscribe makes at an announcer while others subscribe to the track |
| ClientFanOut.AlwaysServes | src/client_manager.cc:39-875 | over every run a handler that a publish made serves every current subscriber of its track |
| ClientFanOut.AllServe | src/client_manager.cc:39-875 | where no handler is made late, every handler does |
| ClientFanOut.LateExample | src/client_manager.cc:1316-1341 | a run in which a handler is made late and leaves a subscriber unserved |
| ClientFanOut.AlwaysServesPrefixes | src/client_manager.cc:39-587 | over every run a handler that a publish made serves every registered subscriber, other than its publisher, of a prefix of its namespace |
| ClientFanOut.AlwaysGoing | src/client_manager.cc:39-875 | over every run a handler with a subscriber, direct or by namespace, is not paused |
| ClientFanOut.AlwaysListed | src/client_manager.cc:1308-1341 | over every run a handler that the relay made is listed for a namespace its announcer still has |
| Framing.ControlReader.ProcessControlMessage | src/peering/peer_session.cc:354-483 | takes at most one message; a body that cannot be parsed empties the buffer |
| Framing.ControlReader.OnControlData | src/peering/peer_session.cc:550-556 | a chunk is appended and processed once |
| Framing.NothingLost | src/peering/peer_session.cc:354-483 | for any bytes in any chunks that announce no length that wraps 32 bits, messages handed on plus buffer are the bytes received if and only if no message that cannot be parsed ever came to the front of the buffer |
| Framing.StartsOver | src/peering/peer_session.cc:354-483 | a message that cannot be parsed takes all that is buffered with it and no more: the chunks that follow are read as by a reader that starts with them |
| Framing.FramesNeverWrap | src/peering/peer_session.cc:354-366 | a stream of messages never announces such a length, however it is cut |
| Framing.WrappingLength | src/peering/peer_session.cc:364-366 | bytes that do |
| Framing.InOrder | src/peering/peer_session.cc:354-483 | the messages handed on are an in-order prefix, one more per chunk as far as complete |
| Framing.DrainedIff | src/peering/peer_session.cc:354-483 | all are handed on if and only if enough chunks follow each point |
| Codecs.AnnounceBack | src/peering/messages/announce_info.cc:29-96 | decoding an encoded announce gives it back |
| Codecs.AnnounceSizeExact | src/peering/messages/announce_info.cc:16-27 | the body has the announced size |
| Codecs.SerializeAnnounce | src/peering/messages/announce_info.cc:66-96 | the encoder's loop |
| Codecs.SnsBackIff | src/peering/messages/subscribe_node_set.cc:17-54 | a set survives encoding and decoding if and only if it has fewer than 65536 nodes |
| Codecs.SnsBackSome | src/peering/messages/subscribe_node_set.cc:17-54 | what comes back otherwise: its first nodes |
| Codecs.SnsSizeExact | src/peering/messages/subscribe_node_set.cc:8-15 | the body has the announced size, both forms |
| Codecs.WithdrawalBack | src/peering/messages/subscribe_node_set.cc:72-75 | the withdraw form gives its id back |
| Codecs.SerializeSns | src/peering/messages/subscribe_node_set.cc:37-54 | the encoder's loop in increasing order |
| Codecs.ParseNodes | src/peering/messages/subscribe_node_set.cc:30-33 | the decoder's loop |
| Codecs.SubscribeBack | src/peering/messages/subscribe_info.cc:22-79 | decoding an encoded subscribe info gives it back |
| Codecs.ShortSubscribeRejected | src/peering/messages/subscribe_info.cc:47-49 | a payload cut short is refused |
| Codecs.SubscribeSender.Serialize | src/peering/messages/subscribe_info.cc:51-90 | the origin bumps its sequence number, wrapping at 0xFFFF, and sends that |
| Codecs.BumpedFits | src/peering/messages/subscribe_info.cc:85-90 | the bumped number differs and survives the round trip |
| MessageLayout.AnnounceForth | src/peering/messages/announce_info.cc:29-64 | the other direction: bytes that are read as an announce are the encoding of it |
| MessageLayout.AnnounceFields | src/peering/messages/announce_info.cc:66-96 | where each field of an announce lies |
| MessageLayout.SnsFields | src/peering/messages/subscribe_node_set.cc:37-54 | where each field of a set lies, its nodes in increasing order |
| MessageLayout.SubscribeForth | src/peering/messages/subscribe_info.cc:22-49 | bytes that are read as a subscribe info are the encoding of it |
| Codecs.SubscribeFields | src/peering/messages/subscribe_info.cc:51-79 | where each field of a subscribe info lies |
| NodeCodec.UintVarBack | src/peering/messages/node_info.cc:33-36 | variable-length lengths of section 16 of RFC 9000 round trip |
| NodeCodec.NodeBack | src/peering/messages/node_info.cc:24-76 | decoding an encoded node info gives it back |
| NodeCodec.NodeSizeExact | src/peering/messages/node_info.cc:18-22 | the body has the announced size |
| MessageLayout.NodeFields | src/peering/messages/node_info.cc:52-76 | where each field of a node info lies, its path in order |
| NodeCodec.SerializeNode | src/peering/messages/node_info.cc:52-76 | the encoder's loop |
| NodeCodec.ParsePath | src/peering/messages/node_info.cc:45-49 | the decoder's loop |
| NodeCodec.IdBack | src/peering/messages/node_info.h:43-101 | parsing the printed text of any 64-bit node id returns it |
| WireMessages.WriteNode | src/peering/messages/node_info.cc:78-98 | a written message is one frame of the control stream, its header announcing the size of the body |
| WireMessages.WriteAnnounce | src/peering/messages/announce_info.cc:98-119 | the same |
| WireMessages.WriteSns | src/peering/messages/subscribe_node_set.cc:56-84 | the same, for the advertise and the withdraw form |
| WireMessages.WriteSubscribe | src/peering/messages/subscribe_info.cc:81-106 | the same, the sequence number bumped first at the origin |
| Bytes.ValueOf | src/peering/common.h:73-90 | filling memory back to front reads a big-endian number |
| Bytes.ValueOfBE | src/peering/common.h:67-71 | writing a number keeps it modulo its width |

## Left out

- SnsNetwork.StepKeeps: sessions that lose their connection stay registered in network runs, because a withdraw dereferences every egress session of its row without checking it; the purge of the node tables is a change of best sessions there, and is skipped by the source while it stops; the priority sent with a set is not carried.
- Sessions.RemovePeerKeeps: for the removal of a whole set, the only one the relay asks for; single nodes are in `RemovePeerNodeIff`.
- Delivery.ExactlyOnce: starts at the first ingress row, since `client_fib_` is keyed by the arriving session in one place and by the best session in another; a stream is one piece there (pieces are in `Pipeline`), best sessions are stable, sets only grow, and no session has used more than 2^32 contexts.
- Forwarding.Forwarder.ForwardPeerData: egress sessions of a row exist as objects, connected or not; the client manager's parsing of objects is not modelled, only the bytes it is given.
- Forwarding.Forwarder.ProcessReceivedData: the first bytes of a stream or datagram hold the whole header; with fewer the source keeps an empty header.
- Framing.ControlReader.ProcessControlMessage: the announced length plus seven must not wrap around 32 bits, where the source reads past its buffer; which bodies cannot be parsed is a parameter.
- Flooding.Converges: advert-only runs over sessions that are connected. Withdraw flooding and the bulk clear of `announces_` when a session is lost are not modelled.
- Flooding.AnnounceRelay.AnnounceInfoReceived: the calls it makes on the client manager for the announce are not part of this object.
- ClientTables.CloseForgets: for the six tables; `requests`, which nothing erases, and `pub_subscribes_by_req_id`, which only a publish that is done erases, keep the entries of a closed connection and are not part of the model.
- ClientManagers.ClientManager.PublishDoneReceived: for the track of a known request; `PublishNamespaceDoneReceived` likewise for the namespace of one. Looking the request up is not part of the model.
- ClientManagers.ClientManager.SubscribeNamespaceReceived: the ranking object of the namespace is not part of the tables.
- ClientTables.AlwaysNamespacesOk: where a prefix of a namespace matches it; both matchers belong to the transport library, and `LeftBehindIff` says what happens otherwise.
- ClientManagers.ClientManager.PublishReceived: whom the track is offered to; the publish handlers themselves are the transport library's.
- ClientManagers.ClientManager.ConnectionStatusChanged: the namespaces to leave are given in the order of their map; the ranking objects of a namespace are not part of the tables.
- ClientManagers.ClientManager.UnsubscribeNamespaceReceived: over a snapshot of the handlers, since the source erases from the map it walks; handlers in the manager's map are values, and `pub_subscribes_by_req_id`, which shares them, is not modelled.
- NodeCodec.IdBack: leading blanks and signs, which the library's number reader accepts, are not modelled.
- TopN.NamespaceHandler.UpdateTrackRanking: the published tracks' handlers are alive; the publish flow itself is the transport library's.
- Subscribe-info flooding: the origin bumps `seq` on every send and any other `seq` is accepted, so the code does not decide termination on cycles.
- Whole-network path-vector claims, fetch and cache, object parsing, `Connect` and `ConnectResponse`, command line and configuration: library calls or plain wrappers.
- Namespace matching (`HasSamePrefix`, `IsPrefixOf`) belongs to the transport library and is a parameter.
