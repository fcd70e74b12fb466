# Models of a Bitswap node

Bitswap exchanges blocks between peers: a node asks its peers for blocks by content id, and serves
the blocks that its peers ask for. This project models the parts of a Go implementation that keep
state about that exchange, and the wire format of its messages, and proves what they promise over
every input and every run of their steps. For the message queue, whose extraction gives up its lock
half-way, the runs also include every interleaving of its locked sections.

A want is a content id together with the auth string that releases the block. Peers are numbered;
peer 0 stands for the empty peer id. Every method that holds a lock, and every handler of an event
loop, is one step. Maps are visited in an arbitrary order, which appears as a parameter where it can
be seen. Clocks, latencies, block sizes, random choices and the contents of other components are
parameters of the steps. `dafny verify dfyconfig.toml` checks the whole project.

## The parts

**Wire format** (`Varint`, `Wire`, `Codec`, `Marshal`). Messages are written and read field by
field, as the Protocol Buffers Encoding guide describes ("Base 128 Varints", "Length-Delimited
Records"): nested messages behind their length, 32-bit integers sign-extended to ten-byte varints,
unknown fields skipped, groups recursively. The sizes are exact at every level, the parser is total
on every slice, and the round trip holds if and only if the CIDs of a message can be cast.
**Messages** (`Hex`, `BitswapMessage`) adds the in-memory form with its Base16 auth strings and says
exactly which contents survive a trip over the wire.

**Outgoing wants** (`Wantlists`, `MessageQueue`, `RemoteView`, `Interleaving`, `Draining`,
`QueueObject`). The queue of a peer keeps pending wants, sent wants and queued cancels and cuts
messages of bounded size from them. The account of what the peer knows is exact once *orphans* are
counted: keys that the peer still has although the queue no longer does, because they were wanted
again while their cancel was queued. Orphans are a real effect: a want cancelled, wanted again and
cancelled once more is never cancelled at the peer. That account takes an extraction as one step.
`Interleaving` lets calls run between its two sections, and says exactly which sent keys the peer
then does not know: those drafted in both lists that one list keeps and the other takes back.
**The manager** (`PeerWants`, `PeerWantObject`) decides which queue is asked for what, with a reverse
index and two gauges, and `Pipeline` joins manager, queue and peer end to end, for peers with and
without HAVE support.

**Timeouts** (`DontHaveTimeout`, `DontHaveTimeoutObject`). One lazily cleaned queue and one timer
stand in for missing DONT_HAVE answers. No active want is left without a check in time, provided
that the manager is started before wants are added, or late but in time; `LateStart` says exactly
when it is.

**Sessions** (`BlockPresence`, `WantSender`, `WantSenderObject`, `Outsiders`, `SessionPresence`). For
each want, one optimistic want-block at a time, the next peer on refusal, a report on exhaustion.
`Outsiders` is about peers that answer without being in the session. `SessionPresence` runs a session
together with the record of block presence that it shares with others: answers are put on record,
wait, and are processed later, while records may be removed in between.

**Provider queries** (`ProviderQuery`). One query for each key, shared by all who ask, each with an
own channel and buffer. A late message of an earlier query can end a later one; `PatientRun` says in
exactly which runs it cannot.

**Serving** (`Engine`, `EngineObject`, `TaskMerger`). Ledgers, a complete but inexact index, and the
merging of tasks.

Modules ending in `Object` hold the objects that the source updates in place, with its loops. Each
of their methods is proved to compute a function of the module next to it, and the lemmas there say
what that function achieves.

## Where the code differs from its descriptions

* A session's best peer, and so the peer with the want-block, may be outside the session, because
  answers are recorded from any sender (`internal/session/sessionwantsender.go:422`). `PickedOutside`
  is such a run, `RunInside` the exact condition, and `StuckOutside` the consequence.
* A key recorded as sent may be unknown to the peer when calls run between the two sections of an
  extraction. `SentButUnknown` has two such runs, and `KnownIffNeverSplit` the exact condition.
* `checkForExhaustedWants` lists as many empty wants as there are wants before the wants themselves
  (`internal/session/sessionwantsender.go:491-494`). The empty ones are not tracked, so this has no
  effect.
* A want that is new to a session, or a peer that is, can meet the condition for exhaustion without
  being reported, since the report only comes with a refusal or a departure.

## Model

| member | source | states |
|---|---|---|
| `Varint.VarintRoundTrip` | message/pb/message.pb.go:681-689 | Reading the base-128 encoding of any 64-bit value, followed by any bytes, gives the value and the number of bytes it took |
| `Varint.VarintExtend` | message/pb/message.pb.go:817-835 | What is read from a string of bytes does not change when bytes are appended to it |
| `Varint.SizeOfVarintExact` | message/pb/message.pb.go:806-808 | The size computed from the bit length is the number of bytes of the encoding, for every number |
| `Varint.EncodeVarint` | message/pb/message.pb.go:681-689 | The loop writes exactly the encoding behind what the buffer holds and returns the index after it |
| `Varint.DecodeVarint` | message/pb/message.pb.go:817-835 | The shift-and-mask loop reads the value modulo the width of the field, or fails exactly where the encoding overflows or ends |
| `Wire.SkipExtend` | message/pb/message.pb.go:1616-1720 | What is skipped as one field does not depend on the bytes behind it |
| `Wire.ParseConcat` | message/pb/message.pb.go:812-1016 | Parsing two strings of fields one behind the other merges the second into the message read from the first |
| `Wire.FieldRoundTrip` | message/pb/message.pb.go:453-504 | A field that is written and followed by any bytes is read back as that field, with its length |
| `Wire.FieldsRoundTrip` | message/pb/message.pb.go:812-1016 | Parsing written fields has the effect of applying the fields in order |
| `Wire.SkipMessage` | message/pb/message.pb.go:1616-1720 | On every slice the skip terminates, stays in range, and returns what the recursive definition says, groups included |
| `Wire.SkipToEndGroup` | message/pb/message.pb.go:1665-1694 | The nested skip of a group ends at its end tag or fails, and the recursion goes down with the bytes left |
| `Wire.ReadField` | message/pb/message.pb.go:812-880 | One turn of an Unmarshal loop reads the next field of the schema or fails with the error of the format |
| `Wire.Unmarshal` | message/pb/message.pb.go:812-1016 | For every slice, the loop over fields returns the value of the parser: success or an error, never out of range |
| `Wire.PutField` | message/pb/message.pb.go:453-504 | Tag, length and payload of a field are appended to what the buffer holds |
| `Codec.EntryRoundTrip` | message/pb/message.pb.go:1124-1321 | Parsing the bytes of an entry gives the entry, negative priorities included, or the CID error if its CID cannot be cast |
| `Codec.BlockRoundTrip` | message/pb/message.pb.go:1322-1476 | Parsing the bytes of a block gives the block |
| `Codec.PresenceRoundTrip` | message/pb/message.pb.go:1477-1615 | Parsing the bytes of a block presence gives it, or the CID error if its CID cannot be cast |
| `Codec.WantlistRoundTrip` | message/pb/message.pb.go:1017-1123 | Parsing the bytes of a wantlist gives the wantlist exactly if all its CIDs can be cast |
| `Codec.MessageRoundTrip` | message/pb/message.pb.go:812-1615 | Parsing the bytes of any message gives the same message if and only if all its CIDs can be cast, otherwise the CID error |
| `Marshal.EntrySizeExact` | message/pb/message.pb.go:740-765 | The computed size of an entry is the number of bytes it is written as |
| `Marshal.BlockSizeExact` | message/pb/message.pb.go:767-786 | The computed size of a block is the number of bytes it is written as |
| `Marshal.PresenceSizeExact` | message/pb/message.pb.go:788-804 | The computed size of a presence is the number of bytes it is written as |
| `Marshal.WantlistSize` | message/pb/message.pb.go:722-738 | The loop over entries adds up to the number of bytes of the wantlist |
| `Marshal.MessageSize` | message/pb/message.pb.go:690-720 | The loops over the parts of a message add up to the number of its bytes |
| `Marshal.MarshalEntry` | message/pb/message.pb.go:556-606 | Writes exactly the bytes of the entry behind what the buffer holds |
| `Marshal.MarshalBlock` | message/pb/message.pb.go:618-642 | Writes exactly the bytes of the block behind what the buffer holds |
| `Marshal.MarshalPresence` | message/pb/message.pb.go:654-679 | Writes exactly the bytes of the presence behind what the buffer holds |
| `Marshal.MarshalWantlist` | message/pb/message.pb.go:516-544 | Writes exactly the bytes of the wantlist, each entry behind its length |
| `Marshal.MarshalMessage` | message/pb/message.pb.go:453-504 | Writes exactly the bytes of the message, every nested message behind its length |
| `Marshal.Marshal` | message/pb/message.pb.go:443-451 | A buffer of the computed size is filled exactly with the bytes of the message |
| `Marshal.UnmarshalMessage` | message/pb/message.pb.go:812-1016 | Unmarshalling into a fresh message computes the parser on every slice |
| `Marshal.SendAndReceive` | message/pb/message.pb.go:443-1016 | Marshalling and unmarshalling gives the message back if and only if its CIDs can be cast |
| `Hex.DecodeEncode` | message/message.go:118-128 | Decoding the Base16 text of any bytes gives the bytes (section 8 of RFC 4648) |
| `Hex.EncodeDecode` | message/message.go:206-253 | Encoding the decoded text gives the text if and only if it is lower-case Base16 of even length |
| `BitswapMessage.ReadBackExactly` | message/message.go:206-253 | For every content that the operations can build and every order of its maps, reading the protobuf form back gives the same content if and only if its CIDs are defined, its auths are lower-case Base16 of even length, and its blocks hash to their CIDs |
| `BitswapMessage.ReadBackWhenFaithful` | message/message.go:447-479 | Such a content is read back with the same entries, blocks, presences, full flag and pending bytes |
| `BitswapMessage.FaithfulWhenReadBack` | message/message.go:206-253 | A content that is read back unchanged is of that kind |
| `BitswapMessage.OverTheWire` | message/message.go:409-505 | The same through the bytes of the message: what was sent is received |
| `BitswapMessage.Message.AddEntry` | message/message.go:325-360 | The entry is merged with one for the same key and the added size is returned; the message stays consistent |
| `BitswapMessage.Message.AddBlock` | message/message.go:362-367 | A block replaces a presence for its key |
| `BitswapMessage.Message.AddBlockPresence` | message/message.go:369-374 | A presence is not added for a key that has a block |
| `BitswapMessage.Message.Remove` | message/message.go:313-315 | The entry for the key is gone, the rest unchanged |
| `BitswapMessage.Message.Reset` | message/message.go:190-202 | The message is empty again, with the given full flag |
| `BitswapMessage.Message.ToProtoV1` | message/message.go:447-479 | The loops over the maps produce the protobuf form for the order in which they visit them |
| `BitswapMessage.NewMessageFromProto` | message/message.go:206-253 | The loops over a protobuf message compute its content or fail with its error |
| `Wantlists.Add` | wantlist/wantlist.go:52-67 | The key is in the list; it is a want-block if it was one or is added as one |
| `Wantlists.AbsorbAll` | wantlist/wantlist.go:114-118 | The loop over the other list's entries has the effect of adding them all, in any order |
| `Wantlists.SortEntries` | wantlist/wantlist.go:121-123 | The result is the same multiset of entries by descending priority |
| `MessageQueue.MaxEntrySize` | message/message.go:130-147 | No want for a CID of at most 34 bytes, with an auth of at most 60 bytes and a non-negative priority, is larger than MaxEntrySize, with or without the cancel and send-dont-have flags |
| `MessageQueue.FillTakesPrefix` | internal/messagequeue/messagequeue.go:738-788 | A message is made of the first entries of what is to be sent, at least one if there is any |
| `MessageQueue.DraftMessage` | internal/messagequeue/messagequeue.go:695-788 | A message has exactly the keys drafted, cancels exactly the drafted cancels, and has every want in at least its pending type |
| `MessageQueue.MarkAllPending` | internal/messagequeue/messagequeue.go:151-157 | Marking the entries of an unchanged list as sent moves exactly them from pending to sent |
| `MessageQueue.CommitEffect` | internal/messagequeue/messagequeue.go:792-811 | The second locked section on an unchanged queue moves exactly the drafted keys and sends the drafted message |
| `RemoteView.StepAccounted` | internal/messagequeue/messagequeue.go:271-360 | Every call and every send keeps the account: the peer's wantlist is the sent keys, the queued cancels and the orphans, which are disjoint |
| `RemoteView.RemoteView` | internal/messagequeue/messagequeue.go:695-811 | In every run the peer's wantlist contains every sent key and every key to be cancelled, and equals their union if and only if there is no orphan |
| `RemoteView.CarefulRunExact` | internal/messagequeue/messagequeue.go:271-360 | In runs that never add a key again while its cancel is queued, with fixed HAVE support, the peer's wantlist is exactly that union |
| `RemoteView.WithdrawnCancelLeaks` | internal/messagequeue/messagequeue.go:310-349 | In any state, a sent want that is cancelled, wanted again and cancelled once more stays on the peer's wantlist without a queued cancel |
| `RemoteView.LeakIsPermanent` | internal/messagequeue/messagequeue.go:323-360 | Such a want stays on the peer's wantlist for as long as nobody asks for it again |
| `Interleaving.TidyInEveryInterleaving` | internal/messagequeue/messagequeue.go:695-811 | However calls run between the two locked sections, cancels are queued only for keys that are neither pending nor sent, and send times kept only for sent keys |
| `Interleaving.UnknownExactly` | internal/messagequeue/messagequeue.go:792-811 | If the peer knew every sent key before the second section, the sent keys it does not know afterwards are exactly the split keys it did not know before: those drafted in both lists of which one list still has the entry and the other does not, whatever calls ran in between |
| `Interleaving.KnownIffNeverSplit` | internal/messagequeue/messagequeue.go:695-811 | However the locked sections interleave, the peer knows every key recorded as sent in each state of the run if and only if no second section meets a split key that the peer does not know |
| `Interleaving.QuietKnown` | internal/messagequeue/messagequeue.go:695-811 | The peer knows every sent key in any interleaving in which calls between the two sections name no key drafted in both lists |
| `Interleaving.UpgradeBetweenSections` | internal/messagequeue/messagequeue.go:792-811 | In any draft, a want-have that became a want-block in between and is also drafted as a broadcast is recorded as sent although the message no longer has the key |
| `Interleaving.CancelBetweenSections` | internal/messagequeue/messagequeue.go:792-811 | So is a key drafted in both lists that was cancelled and then wanted again from this peer only |
| `Interleaving.SentButUnknown` | internal/messagequeue/messagequeue.go:695-811 | Two runs from a new queue, for any key that fits into a message, after which the key is recorded as sent and is not on the peer's wantlist |
| `Draining.WorkShrinks` | internal/messagequeue/messagequeue.go:687-692 | Every extraction leaves less pending work, as long as there is any |
| `Draining.DrainDelivers` | internal/messagequeue/messagequeue.go:695-811 | After as many extractions as there is pending work, every cancel has gone out, every want the peer can receive has gone out in its strongest pending type, and nothing is left |
| `Draining.CutExactly` | internal/messagequeue/messagequeue.go:738-788 | The size is below the limit before every entry after the first, and a message stops short of the end only when the limit is reached |
| `Draining.CutImpliesSorted` | internal/messagequeue/messagequeue.go:747-773 | If a message is cut inside a list of entries no larger than the bound, the test for sorting that list was met |
| `Draining.TruncatedByPriority` | internal/messagequeue/messagequeue.go:747-788 | If no entry is larger than MaxEntrySize, a message leaves out only wants of at most the priority of every want of the same list that it takes |
| `QueueObject.FillConcat` | internal/messagequeue/messagequeue.go:738-788 | Cutting a message from two lists one behind the other is cutting it from the first and, unless that fills it, going on with the second |
| `QueueObject.MessageQueue.AddBroadcastWantHaves` | internal/messagequeue/messagequeue.go:271-290 | The loop leaves the queue as adding the wants one after the other does, with falling priorities and cancels withdrawn |
| `QueueObject.MessageQueue.AddWants` | internal/messagequeue/messagequeue.go:293-320 | The same for want-haves, then want-blocks |
| `QueueObject.MessageQueue.AddCancels` | internal/messagequeue/messagequeue.go:323-360 | The loop forgets all the keys and queues cancels for exactly those that were sent |
| `QueueObject.MessageQueue.TransferRebroadcastWants` | internal/messagequeue/messagequeue.go:484-498 | Sent wants are absorbed into the pending lists; the result says whether there were any |
| `QueueObject.MessageQueue.PendingWorkCount` | internal/messagequeue/messagequeue.go:687-692 | The number of pending wants and queued cancels |
| `QueueObject.MessageQueue.Begin` | internal/messagequeue/messagequeue.go:695-722 | The first locked section: the want-haves a peer cannot receive are dropped, and the three lists come out in some order |
| `QueueObject.Cut` | internal/messagequeue/messagequeue.go:724-788 | The three loops with their early exits and sorting make the draft of the specification, for an order that is by priority whenever a list may not fit |
| `QueueObject.MessageQueue.Finish` | internal/messagequeue/messagequeue.go:788-811 | The second locked section, on any state of the queue |
| `QueueObject.MessageQueue.ExtractOutgoingMessage` | internal/messagequeue/messagequeue.go:695-811 | Both sections and the cut together compute one extraction |
| `PeerWants.NextValid` | internal/peermanager/peerwantmanager.go:59-338 | Every operation keeps the index exact without empty entries, want-blocks and want-haves disjoint, and the calls to each queue adding up to the peer's wants without a redundant call |
| `PeerWants.RunValid` | internal/peermanager/peerwantmanager.go:59-338 | So it is in every run |
| `PeerWants.CancelsExactly` | internal/peermanager/peerwantmanager.go:258-285 | The keys a peer is told to cancel are exactly the cancelled keys that its queue was asked for |
| `PeerWants.CancelCalls` | internal/peermanager/peerwantmanager.go:258-314 | A cancel call goes to exactly the peers whose queue was asked for one of the keys |
| `PeerWants.WantedMeans` | internal/peermanager/peerwantmanager.go:437-450 | The keys listed as wanted are the broadcast wants and everything sent to some peer |
| `PeerWants.Balance` | internal/peermanager/peerwantmanager.go:78-338 | An operation moves a gauge away from what it counts by exactly the number of counted keys that a cancel call repeats |
| `PeerWants.GaugesExactly` | internal/peermanager/peerwantmanager.go:316-326 | In every run the gauges equal the number of wants and want-blocks if and only if no cancel call named a counted key twice, and are too low otherwise |
| `PeerWantObject.CountsMean` | internal/peermanager/peerwantmanager.go:351-375 | With an exact index, a key has counted peers exactly if some peer has it as a want-block, respectively if it is in the index |
| `PeerWantObject.PeerWantManager.WantPeerCounts` | internal/peermanager/peerwantmanager.go:357-375 | The loop over the index counts the peers with a want-block and those with only a want-have |
| `PeerWantObject.PeerWantManager.AddPeer` | internal/peermanager/peerwantmanager.go:59-75 | A new peer is told the broadcast wants; a known one is left alone |
| `PeerWantObject.PeerWantManager.RemovePeer` | internal/peermanager/peerwantmanager.go:78-115 | The two loops take the peer out of the index and lower the gauges by exactly the wants that nobody else has |
| `PeerWantObject.PeerWantManager.BroadcastWantHaves` | internal/peermanager/peerwantmanager.go:118-156 | The loops add the new keys and tell every peer those it was not sent |
| `PeerWantObject.PeerWantManager.SendWants` | internal/peermanager/peerwantmanager.go:160-230 | The loops record and send what the peer was not sent, keep the index and raise the gauges by exactly the new wants |
| `PeerWantObject.PeerWantManager.SendCancels` | internal/peermanager/peerwantmanager.go:234-338 | The loops over keys and peers cancel everywhere, whether they go through all peers or only those in the index |
| `Pipeline.QueueKeys` | internal/messagequeue/messagequeue.go:271-360 | In every run, with and without HAVE support, a queue works for exactly the keys that the calls add up to, less the lost ones: given up as want-haves of a peer without HAVE support and not named by a call since |
| `Pipeline.GivenUpExactly` | internal/messagequeue/messagequeue.go:701-722 | A key is given up exactly if it is pending as a want-have, was not sent as a want-block, and is not a broadcast |
| `Pipeline.EndToEnd` | internal/peermanager/peerwantmanager.go:59-338 | Whatever the manager did, whenever messages were cut and whatever the peer supports, the queue works for exactly the manager's view of the peer less the lost keys, and once it has no work left the peer's own wantlist is that and the orphans, or exactly that in careful runs |
| `Pipeline.EndToEndSupported` | internal/peermanager/peerwantmanager.go:59-338 | With HAVE support nothing is lost |
| `DontHaveTimeout.AverageBetween` | internal/messagequeue/donthavetimeoutmgr.go:388-398 | After any samples, at least one, the average lies between the smallest and the largest, truncation included |
| `DontHaveTimeout.CheckExact` | internal/messagequeue/donthavetimeoutmgr.go:224-279 | A check reports exactly the active wants over the timeout, each once, leaves exactly the others active, and sets the timer in time for them |
| `DontHaveTimeout.AddGood` | internal/messagequeue/donthavetimeoutmgr.go:296-327 | Adding wants keeps the queue in send order with one active entry for each active want, and every active want checked in time |
| `DontHaveTimeout.CancelGood` | internal/messagequeue/donthavetimeoutmgr.go:330-341 | So does cancelling |
| `DontHaveTimeout.RunGood` | internal/messagequeue/donthavetimeoutmgr.go:147-341 | In every run whose start, if it comes when wants are active, comes in time, the active wants are exactly the active entries in send order, each is checked no later than it times out, and the timeout is between zero and its maximum |
| `DontHaveTimeout.NothingReportedTwice` | internal/messagequeue/donthavetimeoutmgr.go:224-341 | Over a run each want was reported or cancelled as often as it was added, less one if it is still active |
| `DontHaveTimeout.NeverOverdue` | internal/messagequeue/donthavetimeoutmgr.go:224-292 | If checks happen when they are due, and before a late start, no want is ever active for longer than the timeout, whatever the timeout does |
| `DontHaveTimeout.LateStart` | internal/messagequeue/donthavetimeoutmgr.go:147-167 | Whatever is pending, starting leaves every active want checked in time if and only if a check is due, or nothing is active, or the timer goes off before the first active entry is over the new timeout |
| `DontHaveTimeout.LateStartAfterCheck` | internal/messagequeue/donthavetimeoutmgr.go:147-167 | Just after a check that left wants pending, that is so if and only if starting does not lower the timeout |
| `DontHaveTimeout.LateStartUnwatched` | internal/messagequeue/donthavetimeoutmgr.go:147-167 | A want added before a late start can be left without a check in time |
| `DontHaveTimeoutObject.DontHaveTimeoutMgr.CheckForTimeouts` | internal/messagequeue/donthavetimeoutmgr.go:224-279 | The popping loop over shared objects computes the check and what it reports |
| `DontHaveTimeoutObject.DontHaveTimeoutMgr.AddPending` | internal/messagequeue/donthavetimeoutmgr.go:296-327 | New objects enter map and queue together, and a check runs if nothing was active |
| `DontHaveTimeoutObject.DontHaveTimeoutMgr.CancelPending` | internal/messagequeue/donthavetimeoutmgr.go:330-341 | Objects reached through the map are marked, which the queue sees |
| `DontHaveTimeoutObject.DontHaveTimeoutMgr.UpdateMessageLatency` | internal/messagequeue/donthavetimeoutmgr.go:172-187 | The average and the timeout are updated, and a check runs if the timeout fell |
| `DontHaveTimeoutObject.DontHaveTimeoutMgr.PingMeasured` | internal/messagequeue/donthavetimeoutmgr.go:206-220 | The timeout follows the ping, unless messages have been measured, and a check runs |
| `DontHaveTimeoutObject.DontHaveTimeoutMgr.Start` | internal/messagequeue/donthavetimeoutmgr.go:147-167 | The first start sets the timeout from a known latency, otherwise asks for a ping |
| `DontHaveTimeoutObject.DontHaveTimeoutMgr.ConsumeTick` | internal/messagequeue/donthavetimeoutmgr.go:281-292 | A tick of the timer runs one check |
| `BlockPresence.ReceivedMeans` | internal/blockpresencemanager/blockpresencemanager.go:26-50 | After a message a peer is known to have a block if it was or says so, to not have it if it was or says so and is not known to have it, and nothing changes for others |
| `BlockPresence.BlockPresenceManager.ReceiveFrom` | internal/blockpresencemanager/blockpresencemanager.go:26-36 | The two loops record what a message says |
| `BlockPresence.BlockPresenceManager.AllPeersDoNotHaveBlock` | internal/blockpresencemanager/blockpresencemanager.go:75-102 | The result has exactly those of the wants of which something is known and which every given peer has refused |
| `BlockPresence.BlockPresenceManager.RemoveKeys` | internal/blockpresencemanager/blockpresencemanager.go:105-112 | Nothing is known any more of the keys, the rest unchanged |
| `WantSender.BatchSettles` | internal/session/sessionwantsender.go:252-311 | After a batch that leaves a peer in the session, every tracked want is in flight to one peer or every session peer is recorded as not having it |
| `WantSender.RunSettles` | internal/session/sessionwantsender.go:252-369 | So it is after every batch of every run |
| `WantSender.OneAtATime` | internal/session/sessionwantsender.go:542-580 | As long as the peer with the want-block neither refuses nor leaves, the want stays in flight to it and is sent to nobody else |
| `WantSender.SendsSeparated` | internal/session/sessionwantsender.go:401-434 | Two want-blocks for a want, of which the first may be sent in the batch that starts tracking it, are separated by a DONT_HAVE from the first recipient or its leaving |
| `WantSender.ReportedIff` | internal/session/sessionwantsender.go:478-520 | A want is reported in a batch, its first included, if and only if it is tracked after it, a refusal or departure leaves no session peer that could have the block, and it is not still marked from an earlier report |
| `WantSender.FlagIff` | internal/session/sessionwantsender.go:716-725 | A want stays marked as exhausted until some peer is recorded as having the block |
| `WantSender.ReportedExactlyOnce` | internal/session/sessionwantsender.go:478-520 | From any batch after which it is tracked, the one that starts tracking it included, and while nobody is recorded as having the block: a want is reported exactly once if it comes to be refused by all session peers, and not at all if it never is or is still marked |
| `WantSender.ReportsSeparated` | internal/session/sessionwantsender.go:623-634 | Two reports of a want, of which the first may come in the batch that starts tracking it, are separated by some peer being recorded as having the block |
| `WantSender.SilentlyExhausted` | internal/session/sessionwantsender.go:350-369 | A want that starts to be tracked when every session peer is known not to have the block is neither sent nor reported |
| `WantSender.SendsAccounted` | internal/session/sessionwantsender.go:378-434 | Over any run that tracks a want, the number of sendings and of peers left to try is at most the number of peers there were to try, plus one for each peer that joins or answers without being on record as lacking the block |
| `WantSender.SendsFromStart` | internal/session/sessionwantsender.go:350-580 | From the batch that starts tracking a want on, it is sent at most once for each session peer there was and each such renewal |
| `Outsiders.PicksInsideIff` | internal/session/sessionwantsender.go:739-757 | A want-block can only go to a session peer if and only if every outsider of whom something is recorded has refused, or some session peer is better |
| `Outsiders.RunInside` | internal/session/sessionwantsender.go:318-434 | Over a whole run nothing better than a refusal is recorded of outsiders if and only if in each batch whoever answers is in the session after the changes of availability, or on record as lacking the block; then no want-block is ever in flight to an outsider |
| `Outsiders.PickedOutside` | internal/session/sessionwantsender.go:401-434 | A run from a new session after which the want-block is in flight to a peer outside it |
| `Outsiders.StuckOutside` | internal/session/sessionwantsender.go:318-346 | A want in flight to an outsider stays in flight to it, and is sent to nobody else, until that peer refuses or joins; that it goes away is not noticed |
| `SessionPresence.RunRecorded` | internal/sessionmanager/sessionmanager.go:147-188 | In every joint run of session and presence manager, presence is exactly what was put on record since the last removal, where a HAVE outweighs refusals, and every refusal that waits for the session was put on record first |
| `SessionPresence.ReportedExactly` | internal/session/sessionwantsender.go:478-520 | A want that is tracked and not still marked is reported exactly if somebody refused it or left, and nobody is left or every session peer has indeed refused it on record |
| `SessionPresence.RenewedExactly` | internal/session/sessionwantsender.go:659-675 | Exactly the peers that join or answer without a refusal on record can be tried again |
| `SessionPresence.FinitelyManySends` | internal/session/sessionwantsender.go:378-434 | In a joint run in which nobody joins, nobody says to have the block and its record is not removed, a want is sent at most as often as there were peers to try: that refusals are on record is proved, not assumed |
| `WantSenderObject.CalculateBestPeer` | internal/session/sessionwantsender.go:739-777 | The result is a peer that no other is better than, or none exactly if no peer is better than DONT_HAVE |
| `WantSenderObject.Choose` | internal/session/peerresponsetracker.go:29-57 | The chosen peer is one of the list |
| `WantSenderObject.OneWantBlock` | internal/session/sessionwantsender.go:542-605 | A want that can be sent goes as a want-block to the peer picked for it and no other, and as a want-have to every other session peer |
| `WantSenderObject.Sender.TrackWant` | internal/session/sessionwantsender.go:350-369 | A new want learns what is known of each session peer; a tracked one is left alone |
| `WantSenderObject.Sender.ProcessAvailability` | internal/session/sessionwantsender.go:318-347 | The loop over peers, in any order, adds and removes peers and what is believed of them, and says who joined and left |
| `WantSenderObject.Sender.ProcessUpdates` | internal/session/sessionwantsender.go:378-474 | The three passes over the updates remove received wants, record answers, and clear what is no longer in flight |
| `WantSenderObject.Sender.CheckForExhaustedWants` | internal/session/sessionwantsender.go:478-520 | Reports and marks exactly the newly exhausted wants |
| `WantSenderObject.Sender.SendNextWants` | internal/session/sessionwantsender.go:542-605 | The chosen wants are marked as in flight and every peer gets the want-blocks and want-haves due to it, and the wants it was not sent |
| `WantSenderObject.Sender.OnChange` | internal/session/sessionwantsender.go:252-311 | A batch is processed as specified, from its changes to its reports and requests |
| `ProviderQuery.NextValid` | internal/providerquerymanager/providerquerymanager.go:335-423 | Every message and every step of a reader keeps each open channel in the set of the request for its key and served with all that was found, without a panic |
| `ProviderQuery.RunValid` | internal/providerquerymanager/providerquerymanager.go:151-423 | In every run no channel is closed twice or sent to when closed, a channel is open exactly while it is in one request's set, and what a session gets is a prefix of what was found |
| `ProviderQuery.ReadToTheEnd` | internal/providerquerymanager/providerquerymanager.go:151-196 | In every run, a session that has read to the end of its channel has got the snapshot and everything sent since |
| `ProviderQuery.LateFinish` | internal/providerquerymanager/providerquerymanager.go:355-366 | Read off the handler: the message of a finished query ends another query's request if and only if the request for its key was not started with it |
| `ProviderQuery.LateFinishHappens` | internal/providerquerymanager/providerquerymanager.go:355-423 | A key asked for, given up and asked for again reaches such a state |
| `ProviderQuery.PatientRun` | internal/providerquerymanager/providerquerymanager.go:355-400 | All along a run a finished query can only end its own request, if and only if a query for a key is started only when its last query is over |
| `ProviderQuery.ProviderQueryManager.HandleNew` | internal/providerquerymanager/providerquerymanager.go:372-400 | The first request for a key starts a query; each gets its own channel and what was found so far |
| `ProviderQuery.ProviderQueryManager.HandleReceived` | internal/providerquerymanager/providerquerymanager.go:335-349 | A provider is recorded and sent to every listener of the request, if there is one |
| `ProviderQuery.ProviderQueryManager.HandleFinished` | internal/providerquerymanager/providerquerymanager.go:355-366 | All channels of the request for the key are closed and the request is gone |
| `ProviderQuery.ProviderQueryManager.HandleCancel` | internal/providerquerymanager/providerquerymanager.go:406-423 | The channel is closed and taken out of its request, which ends with its last listener |
| `TaskMerger.MergeAllJoins` | internal/decision/taskmerger.go:60-88 | Merging any tasks of the engine for one key gives their join: block there if one says so, to be sent if one says so, and the work that follows |
| `TaskMerger.OrderDoesNotMatter` | internal/decision/taskmerger.go:60-88 | Merging the same tasks in another order gives the same task |
| `TaskMerger.FirstDoesNotMatter` | internal/decision/taskmerger.go:60-88 | Whichever of two tasks was there first, the work and the information are the same |
| `TaskMerger.HasNewInfo` | internal/decision/taskmerger.go:28-56 | The loop answers yes if and only if the task raises the join of the tasks that are there |
| `TaskMerger.NewInfoChanges` | internal/decision/taskmerger.go:28-88 | Merging changes a task if and only if there is new information |
| `TaskMerger.QueuedTask.MergeWith` | internal/decision/taskmerger.go:60-88 | The assignments overwrite the queued task with the merged one |
| `Engine.TasksMergeable` | internal/decision/engine.go:560-618 | Read off the construction: every task the engine makes is of the kind for which merging is a join |
| `Engine.NextComplete` | internal/decision/engine.go:491-810 | Every engine method keeps the index complete: a want in a ledger has its peer in the index |
| `Engine.RunComplete` | internal/decision/engine.go:491-810 | So it is in every run |
| `Engine.BlocksReachEveryone` | internal/decision/engine.go:647-748 | Every task is queued for every peer exactly as often as a scan of all ledgers says: once for each time its block is listed; and the index is exact for the received keys afterwards |
| `Engine.LedgerRun` | internal/decision/engine.go:544-810 | In every run the keys of a peer's ledger lie between what its messages add up to, less the blocks sent to it, and that less the HAVEs too |
| `Engine.LedgerExactly` | internal/decision/engine.go:544-810 | In a run without HAVEs to the peer, its ledger is exactly what its messages add up to since it connected, less the blocks sent to it |
| `EngineObject.SplitKeys` | internal/decision/engine.go:629-640 | The two parts of a wantlist have exactly the keys it wants and cancels |
| `EngineObject.PeerLedger.Wants` | internal/decision/peer_ledger.go:16-23 | The peer is added for the key, nothing else changes |
| `EngineObject.PeerLedger.CancelWant` | internal/decision/peer_ledger.go:25-34 | The peer is removed for the key, and the key with its last peer |
| `EngineObject.PeerLedger.Peers` | internal/decision/peer_ledger.go:36-47 | The peers listed for the key, none if it is not there |
| `EngineObject.Engine.MessageReceived` | internal/decision/engine.go:491-626 | Index and ledger are updated entry by entry, tasks are made for exactly the wants that get an answer, and cancelled wants leave the queue; nothing happens if sizes cannot be looked up |
| `EngineObject.Engine.ReceiveFrom` | internal/decision/engine.go:647-748 | The loops through the index queue every task as often as a scan of all ledgers says, repeats included, and remove from the index what it has wrong |
| `EngineObject.Engine.MessageSent` | internal/decision/engine.go:758-776 | Sent blocks and HAVEs leave the ledger, except that a HAVE does not serve a want-block |
| `EngineObject.Engine.PeerConnected` | internal/decision/engine.go:780-790 | The peer has a ledger, the one it had if any |
| `EngineObject.Engine.PeerDisconnected` | internal/decision/engine.go:793-810 | The ledger is gone and its wants leave the index |

## Left out

- Sockets, streams, retries, pings and content routing (`network/`), and the libraries behind them.
- The task queue, the publish-subscribe library, CID parsing and hashing: a CID is a string of bytes that can be cast or not, and a block matches its CID or not, as given functions say.
- Goroutines, channels and contexts as such: every locked section or handler is one step, and `Interleaving` lets other calls run between the two locked sections of an extraction. The engine updates index and ledger under different locks; here its methods are atomic.
- The slices that Go code shares: copies and aliases of byte slices and of the buffer for cancels.
- Overflow of 64-bit durations and of sample counters; rounding of floating-point numbers, for which reals with truncation stand.
- Which parts of a message an Unmarshal that fails has already filled in; errors for a length out of range and for the end of input are one error.
- `impl.Clone`, which does not copy a message completely, and the older wire format, which drops auths and presences.
- The weights with which the best peer is drawn among equals: any of them may be drawn.
- The count of consecutive DONT_HAVEs after which a session drops a peer: its effect is a later change of availability.
- The latency measurement of a message queue, its timers and its debouncing; score ledgers and receipts.
- Session interests, session wants, the session's own loop, and connection events.
- The removal of cancelled tasks from the request queue, of which only the keys are given.
- BitswapMessage.ReadBackExactly: takes from the CID library that hashing a block with the prefix of a CID gives a CID with that prefix.
- Wire.Unmarshal: slices are at most eight bytes shorter than the largest integer, so that an index can be moved past the end without overflow.
- Marshal.MarshalMessage: a message of more bytes than the largest integer is not covered, as no slice could hold it.
- WantSender.RunSettles: what is known of block presence does not change while a batch is processed, although other sessions can change it at any time.
- DontHaveTimeout.RunGood: needs calls that add wants to come one after the other, as the queue's only sender makes them; the time they read is then never earlier than before.
