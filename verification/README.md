# DUECA communication and data logging, verified in Dafny

DUECA is a distributed real-time framework. Its nodes exchange data over a lossy packet network, and its
recorders log data to block-structured files. This project models the parts that carry these data and proves
that nothing is lost, repeated or mixed up on the way.

* **The ring transport** (`PacketNumbers`, `RingNode`, `RingProtocol`, `RingProgress`, `RingConfirms`, `RingAges`,
  `RingWire`, `IPAccessor`). Node 0 is the master, the other nodes answer in order, confirms run back down the chain,
  and a cycle is repeated until the master has heard everybody. The ring is a step system over the set of all packets
  ever sent, so packets may be lost, duplicated, delayed and reordered. A delivered packet may be at most
  `MAX_AGE` = 2^19 - 1 cycles of the master old; `RingAges.OverAgePacketBreaksAgreement` constructs a regular run after
  which a packet one cycle older is accepted a second time. From every reachable state the ring can go on to the next
  cycle, and to any number of cycles after it.
* **Bulk data** (`FillFraming`, `FillTransfer`, `FillRates`, `FillBounds`, `FillPacker`, `FillUnpacker`,
  `AmorphStores`). Objects are framed into two stores that are cut into slices of any size, and rebuilt by a parser that
  rewinds on an incomplete object. `BulkDelivery` puts it on top of the ring.
* **The log file** (`ControlBlocks`, `BlockFiles`, `StreamWriters`, `LogStore`, `LogRuns`, `LogSessions`, `LogSync`,
  `LogReading`, `LogPositions`, `IndexScans`, `LogSegments`, `SegmentFiles`, `ShortStretches`). Any number of
  streams share one file of blocks; a partly filled block may be written early and again later, and the link in
  the block before it is patched. The model works on the bytes of the file. A session is any interleaving of
  writing, marking, closing off and write jobs on a new file.
* **Whole recordings** (`Recordings`, `CycleReplays`, `LostCycles`). Stretches are started and completed on such a
  file, every recorder records in some of them or in none, and each stretch gets a tag. What is replayed for a
  cycle is compared with what was recorded in it.
* **The objects behind it** (`MessageBuffers`, `StreamWriting`, `FileHandling`, `StreamReaders`, `StreamReading`,
  `LogReplay`): buffers, writers, the file handler and the reader with its cache, each proved against the model.
* **Around it**: replay of events at shifted times (`EventReplay`), the organisation of channels, their ends and
  their identities (`ChannelOrganisers`, `ChannelManagers`), the queue of activities (`RunQueues`), the activity log
  that is cut off where its store is full (`ActivityLogs`), and the index of inherited members (`DataClasses`).

Packet numbers, ticks and run queue keys are compared on 32-bit words, as the source does; a subtraction that runs
over wraps, as it does on the machines the source is written for.

Where the code does not do what its comments say, the model follows the code, and the exact condition is a
theorem:

* A cycle of a recording is replayed as it was recorded only under a condition
  (`CycleReplays.CycleReplayIffSeparate`). It gives too much when the next stretch begins in the same block, because
  the end of the iteration in the first buffer is set before that buffer is trimmed
  (`ShortStretches.ReplayGivesNextStretchToo`); a stretch in which a recorder recorded nothing keeps the tag of the one
  before, so that data behind the first block of that one are lost and the empty stretch is replayed with data
  (`LostCycles.LosingLoses`).
* Loading blocks leaves the file stream at the start of the file, and a block that is then appended overwrites
  what is there, although reading and writing may alternate (`LogPositions.ProcessKeepsStoreIffInPlace`).
* A bulk object with fewer than 2 bytes of data at the end of a store waits in the receive buffer. A buffer as large
  as a store is enough when no store ends so, and no buffer is enough otherwise (`FillBounds.BufferSuffices`,
  `FillBounds.NoBufferSuffices`).
* A channel with the empty name is handed to an organiser that stands for no channel (`ChannelManagers.NameKeepsItsId`),
  activities whose keys are 2^31 apart are queued the wrong way round (`RunQueues.OldItemLooksLess`), and a member
  that hides one of an ancestor is another one by name than by index (`DataClasses.SameAccessIffOnce`).

Assumptions about code that is not part of this model: the asynchronous queues and lists are first-in first-out;
spare buffers come back reset; `closeOff()` without an argument is the intermediate close; block sizes lie
between the header size and 2^32; a file stays below 2^63 bytes; the missed-data flag of the ring is never set,
as no statement sets it; an update that deletes an end ends what was said of it before.

## Model

| member | source | states |
|---|---|---|
| PacketNumbers.WireSteps | dueca/IPAccessor.cxx:676-687 | Stepping the true packet number and stepping its 32-bit word agree: a retry keeps the cycle bits and counts the 12 repeat bits up, from the highest to zero; a new cycle clears them |
| PacketNumbers.PacketAfterExact | dueca/IPAccessor.cxx:24 | `packet_after` on two words is exactly: the distance, modulo 2^32, from b to a is at least 1 and at most 2^31 |
| PacketNumbers.PacketAfterIsOrder | dueca/IPAccessor.cxx:24 | For true numbers less than 2^31 apart it is the unbounded order |
| PacketNumbers.PacketAfterFailsAtHalfRange | dueca/IPAccessor.cxx:24 | At a distance of exactly 2^31 it calls the older number later, so the bound is exact |
| PacketNumbers.WireOrder | dueca/IPAccessor.cxx:437-448 | The three comparisons the nodes make (of numbers, of cycle bits, and for equality) decide the true order within a window of 2^19 cycles |
| PacketNumbers.WireSeesOlder | dueca/IPAccessor.cxx:448 | A packet of an older cycle within the window is never taken for a newer one |
| RingNode.Accept | dueca/IPAccessor.cxx:446-457 | Accepting a packet appends at most one payload, to its sender only |
| RingNode.SpinToLast | dueca/IPAccessor.cxx:601-615 | When purging, or when the first one says that data was missed, the last of the queued packets of the master is used, otherwise the first |
| RingNode.OnMaster | dueca/IPAccessor.cxx:569-660 | A follower that hears the master keeps its state shape and only appends |
| RingNode.OnPeerData | dueca/IPAccessor.cxx:359-489 | The same for data of the awaited peer |
| RingNode.OnConfirm | dueca/IPAccessor.cxx:493-548 | The same for a confirm |
| RingNode.Clean | dueca/IPAccessor.cxx:676-687 | A cleaning round moves the cycle by at most one, and keeps the data to send |
| RingNode.Finish | dueca/IPAccessor.cxx:826-833 | The end of a round moves the cycle by at most one |
| RingNode.OnMasterData | dueca/IPAccessor.cxx:707-787 | The receive loop of the master keeps the state shape and only appends |
| RingNode.OnMasterConfirm | dueca/IPAccessor.cxx:788-825 | A confirm of the master's round only appends and takes nothing; what the last one brings about is in `RingProgress.CycleCanComplete` and `RingNode.MissedMeansAgain` |
| RingNode.OnNothing | dueca/IPAccessor.cxx:359-420 | A wait that ends without a usable packet accepts nothing |
| RingNode.Load | dueca/IPAccessor.cxx:837-880 | Data is taken from the packers at most once per call |
| RingNode.AfterSend | dueca/IPAccessor.cxx:334-357 | Sending accepts nothing and keeps the state shape |
| RingNode.NodeStep | dueca/IPAccessor.cxx:320-674 | Every step of a node keeps its shape and only appends to what it took and accepted |
| RingProtocol.StepKeepsInv | dueca/IPAccessor.cxx:320-833 | Every step of every node, over a network that may lose, duplicate, delay and reorder packets up to a maximum age, keeps the invariant of the ring |
| RingProtocol.RunKeepsInv | dueca/IPAccessor.cxx:320-833 | The invariant holds in every state of every run |
| RingProtocol.RunGrows | dueca/IPAccessor.cxx:446-457 | Over a run a node only ever adds to what it took and accepted |
| RingProtocol.Agreement | dueca/IPAccessor.cxx:446-457 | In every state of every run, what node i accepted from node j is a prefix of what node j sent for the cycles, in order, each once and without gaps; so two nodes never differ on a (sender, cycle), and the lengths differ by at most one |
| RingProtocol.RoundIsBarrier | dueca/IPAccessor.cxx:691-833 | When the master has completed a round, every node has accepted the data of that cycle from every other sender; the data packet of the last sender stands in for its confirm |
| RingProtocol.AdvanceIsBarrier | dueca/IPAccessor.cxx:826-833 | Whenever the master moves to the next cycle, every node has accepted that cycle from every other sender |
| RingProtocol.MasterAdvances | dueca/IPAccessor.cxx:826-833 | The move to the next cycle keeps the invariant |
| RingProtocol.AdvancesByOne | dueca/IPAccessor.cxx:826-833 | Over a step the cycle of the master moves by at most one |
| RingAges.RoundsGoOn | dueca/IPAccessor.cxx:569-833 | A ring of two nodes can complete any number of cycles: the run is constructed, round by round |
| RingAges.OverAgePacketBreaksAgreement | dueca/IPAccessor.cxx:446-457 | The maximum packet age is exact: after a regular run, a packet of the first cycle that is one cycle older than allowed is accepted as new, and what the follower accepted is no prefix of what the master sent |
| RingWire.ControlRoundTrip | dueca/IPAccessor.cxx:1135-1169 | The control bytes decode to the number, the missed flag and the sizes that were encoded |
| RingWire.PacketRoundTrip | dueca/IPAccessor.cxx:895-943 | A whole packet decodes to the sender's own split in regular and bulk bytes |
| IPAccessors.CarriedSays | dueca/IPAccessor.cxx:1135-1169 | What `getControlData` reads from a buffer that carries a packet |
| IPAccessors.IPAccessor.constructor | dueca/IPAccessor.cxx:76-113 | A new accessor is the start state of the node |
| IPAccessors.IPAccessor.PackWork | dueca/IPAccessor.cxx:843-880 | Old data is kept, without its control bytes, until it was accepted; only then new data is packed |
| IPAccessors.IPAccessor.AddTrailer | dueca/IPAccessor.cxx:891-943 | The control bytes go behind the data, which is not touched |
| IPAccessors.IPAccessor.SendMyData | dueca/IPAccessor.cxx:837-976 | The packet sent decodes to the node's packet; a packet that is sent again has the same data bytes as before |
| IPAccessors.IPAccessor.DataSendState | dueca/IPAccessor.cxx:334-357 | State DataSend is the sending step of the node |
| IPAccessors.IPAccessor.SendMyConfirm | dueca/IPAccessor.cxx:550-567 | State SendConfirm is the confirming step of the node |
| IPAccessors.IPAccessor.AcceptIfNewer | dueca/IPAccessor.cxx:446-457 | The unpackers get the data exactly when the cycle is newer |
| IPAccessors.IPAccessor.ReadOn | dueca/IPAccessor.cxx:1045-1098 | Reading on to the last queued packet |
| IPAccessors.IPAccessor.Purge | dueca/IPAccessor.cxx:601-615 | The queued packets are skipped exactly when the master hints at missed data or a sequence was broken off |
| IPAccessors.IPAccessor.SyncOnZeroState | dueca/IPAccessor.cxx:569-660 | State SyncOnZero is the node's reaction to the master |
| IPAccessors.IPAccessor.FollowMaster | dueca/IPAccessor.cxx:621-660 | A newer cycle of the master frees the own store; the number of the master is taken over |
| IPAccessors.IPAccessor.DataReceiveState | dueca/IPAccessor.cxx:359-489 | State DataReceive is the node's reaction to a peer |
| IPAccessors.IPAccessor.NextPeer | dueca/IPAccessor.cxx:466-489 | Which sender, or which state, comes next |
| IPAccessors.IPAccessor.WaitConfirmState | dueca/IPAccessor.cxx:493-548 | State WaitConfirm is the node's reaction to a confirm |
| IPAccessors.IPAccessor.SetForCleaningRound | dueca/IPAccessor.cxx:676-687 | The cleaning round of the node, on 32-bit words |
| IPAccessors.IPAccessor.NoUsablePacket | dueca/IPAccessor.cxx:378-420 | Timeouts and short packets |
| IPAccessors.IPAccessor.FinishRound | dueca/IPAccessor.cxx:826-833 | The end of a round |
| IPAccessors.IPAccessor.StartRound | dueca/IPAccessor.cxx:691-716 | The head of the master's round: send, and wait for the first peer |
| IPAccessors.IPAccessor.MasterReceiveState | dueca/IPAccessor.cxx:717-787 | The receive loop, one packet |
| IPAccessors.IPAccessor.NextInRound | dueca/IPAccessor.cxx:778-790 | Next peer, confirms, or next cycle |
| IPAccessors.IPAccessor.MasterConfirmState | dueca/IPAccessor.cxx:788-825 | The confirm loop, one packet |
| FillFraming.FrameTaken | dueca/FillPacker.cxx:96-125 | A complete frame at the head of the buffer is taken exactly if its data and what follows it have together at least 2 bytes, and then it is the object that was framed |
| FillFraming.CutFrameNotTaken | dueca/FillUnpacker.cxx:259-378 | An incomplete frame is left for later |
| FillFraming.WholeFramesMaximal | dueca/FillUnpacker.cxx:259-378 | Which objects lie completely in a number of bytes |
| FillFraming.ParsePrefix | dueca/FillUnpacker.cxx:259-378 | Parsing any beginning of a series of framed objects takes exactly the complete ones |
| FillFraming.ParseResume | dueca/FillUnpacker.cxx:374-378 | Parsing after a rewind gives the same as parsing everything at once |
| FillFraming.ParseAllExact | dueca/FillUnpacker.cxx:259-260 | A complete series is taken to the last byte exactly when it is empty or its last object has at least 2 bytes of data |
| FillFraming.ParseIsPrefix | dueca/FillUnpacker.cxx:259-378 | For objects of any size the objects taken are a beginning of those framed |
| FillTransfer.PackWorkShape | dueca/FillPacker.cxx:127-178 | Packing keeps the stores within their capacity |
| FillTransfer.Slice | dueca/FillPacker.cxx:208-240 | A slice never mixes two stores and fits the room offered; how long it is is in `FillRates.RoomIsUsed` |
| FillTransfer.RunBooked | dueca/FillPacker.cxx:127-248 | Over every run packer and unpacker stay in step: the receive buffer holds exactly the sent part of the store that is being sent |
| FillTransfer.Conservation | dueca/FillPacker.cxx:127-178 | Objects packed, thrown out and still waiting are together the objects offered, in order; the bytes sent are the beginning of the framed sendable objects |
| FillTransfer.BulkRoundTrip | dueca/FillUnpacker.cxx:158-384 | For every series of objects with at least 2 bytes of data and every series of slice sizes the unpacker has delivered exactly the sendable objects whose last byte has arrived, and its buffer did not overflow |
| FillTransfer.EmptyOnlyWhenDone | dueca/FillPacker.cxx:208-211 | A call with room enough comes back empty only when everything was sent |
| FillTransfer.DeliveryIsPrefix | dueca/FillUnpacker.cxx:158-384 | Objects of any size: as long as the buffer did not overflow, the delivered objects are a beginning of those offered |
| FillTransfer.TinyObjectKeepsBuffer | dueca/FillUnpacker.cxx:374-383 | A store that arrives in one slice in an empty buffer leaves it empty exactly when its last object has at least 2 bytes |
| FillBounds.BufferSuffices | dueca/FillUnpacker.cxx:190-194 | Objects of any size: over every run in which no store that is sent ends with an object of fewer than 2 bytes, a receive buffer as large as a store never overflows |
| FillBounds.NoBufferSuffices | dueca/FillUnpacker.cxx:259-260 | Otherwise no size is enough: for every store size and every buffer size there is a run of the packer, with objects of 1 byte, that overflows the buffer |
| FillBounds.ParseBehind | dueca/FillUnpacker.cxx:259-370 | What the parser takes behind the objects it took before, for objects of any size |
| Bytes.BigEndianRoundTrip | dueca/AmorphStore.cxx:24-36 | Numbers that fit come back from their bytes; the order of the bytes is in `Bytes.BigEndianDigit` |
| Bytes.BigEndianLow | dueca/AmorphStore.cxx:284-294 | Of a number that does not fit the low bytes are kept |
| Bytes.FromBigEndianBound | dueca/AmorphStore.cxx:631-642 | Every byte string of a length is the packing of one number |
| AmorphStores.AmorphStore.InternalCheckForRoom | dueca/AmorphStore.cxx:81-91 | A store that choked stays choked |
| AmorphStores.AmorphStore.PackData | dueca/AmorphStore.cxx:370-376 | Bytes go behind the contents, or nothing changes and the store is choked |
| AmorphStores.AmorphStore.StartBigMark | dueca/AmorphStore.cxx:111-116 | Room for a length is reserved |
| AmorphStores.AmorphStore.EndBigMark | dueca/AmorphStore.cxx:118-128 | The reserved place gets the number of bytes behind it |
| AmorphStores.AmorphReStore.UnPackData | dueca/AmorphStore.cxx:692-699 | Bytes are taken from the front, or the store is exhausted |
| AmorphStores.AmorphReStore.PeekBigMark | dueca/AmorphStore.cxx:490-497 | The length is read without moving on |
| FillPackers.FillPacker.PackOneSet | dueca/FillPacker.cxx:96-125 | One object is framed into the store, or the store chokes |
| FillPackers.FillPacker.PackWork | dueca/FillPacker.cxx:127-178 | The loop packs as the model does: an object that does not fit an empty store is thrown out and packing stops, otherwise the store is set back |
| FillPackers.FillPacker.SwapIfSent | dueca/FillPacker.cxx:185-202 | The stores change places when everything was sent |
| FillPackers.FillPacker.CutSlice | dueca/FillPacker.cxx:208-240 | The slice of the model is copied to the message and nothing else is touched |
| FillPackers.FillPacker.StuffMessage | dueca/FillPacker.cxx:180-248 | The whole call is the model's |
| FillUnpackers.FramedHasNoHugeMark | dueca/FillUnpacker.cxx:265-300 | No beginning of framed data shows a length of 2^31 or more, which the code would treat as negative |
| FillUnpackers.FillUnpacker.TakeAll | dueca/FillUnpacker.cxx:259-370 | The parsing loop takes what `Parse` takes |
| FillUnpackers.FillUnpacker.Despatch | dueca/FillUnpacker.cxx:158-384 | The whole call is the model's: append, parse, rewind or reset |
| BulkDelivery.PartialRoundTrip | dueca/FillUnpacker.cxx:158-384 | The bulk round trip for the first messages of a run |
| BulkDelivery.EndToEnd | dueca/IPAccessor.cxx:837-879 | Ring and fill together: in every state of every run, what a node has extracted from a sender is exactly the first objects that sender packed, in order and each once |
| ControlBlocks.DecodeEncode | ddff/ControlBlock.cxx:26-75 | A block that is written decodes to its fields, the checksum verifies and the data area is intact |
| ControlBlocks.PatchKeepsBlock | ddff/FileStreamWrite.cxx:73-84 | Patching the link changes the link only, and the checksum verifies exactly if it did before |
| BlockFiles.TileIndex | ddff/FileHandler.cxx:228-309 | Every block of a stream is a block of the file |
| BlockFiles.ChainUpdate | ddff/FileHandler.cxx:239-268 | Writing a block over another of the same stream and size changes nothing else in any stream |
| BlockFiles.ChainIncreases | ddff/FileHandler.cxx:279-299 | The blocks of a stream lie one behind the other in the file |
| BlockFiles.RewriteTile | ddff/FileHandler.cxx:239-254 | Writing a block at the place of another replaces it |
| BlockFiles.PatchTile | ddff/FileStreamWrite.cxx:73-84 | Writing 8 bytes at the place of a block patches its link |
| StreamWriters.Write | ddff/FileStreamWrite.cxx:200-237 | A write leaves room in the current buffer |
| StreamWriters.WriteIsPuts | ddff/FileStreamWrite.cxx:200-237 | Writing in one piece gives the same blocks as writing byte by byte |
| StreamWriters.WriteInPieces | ddff/FileStreamWrite.cxx:200-237 | Blocks do not depend on how data is cut up into calls |
| StreamWriters.ToldWriteAdds | ddff/FileStreamWrite.cxx:200-237 | The pieces of the blocks together are the bytes written |
| StreamWriters.PutFollows | ddff/FileStreamWrite.cxx:149-179 | One byte through the iterator keeps buffers and story in step |
| StreamWriters.MarkItemFollows | ddff/FileStreamWrite.cxx:293-306 | Marking an item keeps buffers and story in step |
| StreamWriters.MarkSegmentFollows | ddff/FileStreamWrite.cxx:308-311 | Asking for the start of a stretch keeps buffers and story in step |
| StreamWriters.CloseOffFollows | ddff/FileStreamWrite.cxx:93-140 | Closing off, intermediate or final, leaves the newest image last in the queue and loses no start of a stretch that has begun |
| LogStore.ImageHolds | ddff/FileStreamWrite.cxx:239-260 | The block that goes to file carries the number, the fill level, the mark and the data of its buffer |
| LogStore.AppendFits | ddff/FileHandler.cxx:270-300 | Appending a block keeps the stream's list of blocks: numbered from 0, linked, full up to the last, checksums right |
| LogStore.RewriteFits | ddff/FileHandler.cxx:239-268 | Rewriting the partial block keeps the list |
| LogStore.WriteStream | ddff/FileStreamWrite.cxx:200-237 | Writing leaves the blocks on file right |
| LogStore.TakenStretch | ddff/FileWithSegments.cxx:305-331 | The start of a stretch is reported with the block it is in, also when that block is written again |
| LogRuns.JobsAreReady | ddff/FileHandler.cxx:228-245 | A write job always finds its buffer, and remembered places are inside the file |
| LogRuns.StepKeepsStore | ddff/FileHandler.cxx:228-309 | Every call of every writer and every write job keeps the on-file invariant for all streams: the file is a series of whole blocks, each stream a linked list of blocks holding what its story tells |
| LogSessions.SessionKeepsStore | ddff/FileHandler.cxx:228-309 | The invariant holds after every session, and the stories tell exactly what was written, first marked, closed off and begun |
| LogSessions.Untouched | ddff/FileHandler.cxx:113-127 | A stream that does not exist has nothing written to it |
| LogPositions.ProcessKeepsStoreIffInPlace | ddff/FileHandler.cxx:279-280 | A write job keeps the invariant if and only if it is a rewrite or the file stream stands at the end of the file |
| LogPositions.OutOfPlaceIsShort | ddff/FileHandler.cxx:279-299 | Otherwise the block goes over what is on file where the file stream stands, and the file is shorter than the handler counts |
| LogPositions.LoadPutsAppendOutOfPlace | ddff/FileHandler.cxx:369 | A session that gets there: `runLoads` between two appended blocks |
| LogReading.SavedIsShown | ddff/FileStreamWrite.cxx:93-140 | A stream that was closed off and has no waiting buffers is on file completely |
| LogReading.TailUpTo | ddff/FileStreamRead.cxx:164-181 | What a range delivers up to a place in a later block |
| LogReading.RangeAcross | ddff/FileStreamRead.cxx:119-191 | Reading from a place to one in a later block gives the bytes in between |
| LogReading.RangeInside | ddff/FileStreamRead.cxx:159-181 | Reading between two places of the block that is entered first gives the rest of that block too |
| LogReading.FollowIsChain | ddff/FileStreamRead.cxx:119-123 | Following the links in the bytes of the file finds the stream's blocks |
| LogReading.RoundTrip | ddff/FileStreamRead.cxx:102-191 | For any number of streams and any interleaving, following a stream's links from its first block gives exactly the bytes written from the first marked item on |
| LogSync.DrainsInPlace | ddff/FileHandler.cxx:228-309 | All write jobs can be processed once the first one is in place |
| LogSync.DrainedSession | ddff/FileHandler.cxx:100-113 | Processing all jobs is part of a session and leaves none |
| LogSync.SyncedRoundTrip | ddff/FileHandler.cxx:100-113 | Closing a stream off and processing all jobs is enough for the round trip |
| LogSegments.SessionKeepsPlace | ddff/FileWithSegments.cxx:305-331 | A place in the file that a tag refers to keeps its meaning for the rest of the session |
| LogSegments.SavedIsTagged | ddff/FileWithSegments.cxx:353-365 | When a stretch was closed off and processed, its start is reported |
| LogSegments.TagIsStart | ddff/FileWithSegments.cxx:305-331 | The place reported is where the first item of the stretch was written |
| LogSegments.SegmentReplay | ddff/FileWithSegments.cxx:422-459 | Replaying from one stretch to a later one gives the bytes up to the start of the later one or up to the end of the data of the block it began in, whichever is further on; these are the bytes recorded in between if and only if the later stretch does not begin inside the data of that block |
| LogSegments.LastSegmentReplay | ddff/FileWithSegments.cxx:429-451 | The last stretch is replayed to the end of the file |
| ShortStretches.ShortStreamReplaysTooMuch | ddff/FileStreamRead.cxx:162 | On a stream that fits in one block every replay of a stretch before another gives too much |
| ShortStretches.ReplayGivesNextStretchToo | ddff/FileStreamRead.cxx:162 | A session of two stretches of one byte in which the replay of the first gives both bytes |
| IndexScans.CheckIndices | ddff/FileHandler.cxx:171-214 | The scanning loop computes the model's scan |
| IndexScans.ScanRest | ddff/FileHandler.cxx:179-202 | On whole blocks the scan ends and finds the streams |
| IndexScans.IndexRebuild | ddff/FileHandler.cxx:464-506 | Scanning the file left by any session finds for every stream the first and the last block the live handler knows, and its block size |
| StreamReaders.RunOneKeeps | ddff/FileHandler.cxx:322-371 | Loading a block, of this read cycle or a stale one, leaves what is still to be read unchanged and comes nearer to an empty job queue |
| StreamReaders.PushRequestsKeeps | ddff/FileStreamRead.cxx:193-203 | Requesting leaves what is still to be read unchanged |
| StreamReaders.PoppedKeeps | ddff/FileStreamRead.cxx:249-253 | Leaving a buffer takes its last byte |
| StreamReaders.NextBufferKeeps | ddff/FileStreamRead.cxx:271-297 | Going over to the next buffer takes nothing; the end comes only when nothing is left |
| StreamReading.FileStreamRead.SetReadRange | ddff/FileStreamRead.cxx:372-402 | All of the range is ahead |
| StreamReading.FileStreamRead.AppendBuffer | ddff/FileStreamRead.cxx:102-191 | The loaded block is appended, passed over or discarded as the model says |
| StreamReading.FileStreamRead.RunLoads | ddff/FileHandler.cxx:322-371 | The loop ends, changes nothing of what is still to be read, and never holds more buffers than the cache has |
| StreamReading.FileStreamRead.Increment | ddff/FileStreamRead.cxx:243-302 | One byte is taken; the iterator is the end exactly when nothing is left |
| StreamReading.ReadRange | ddff/FileStreamRead.cxx:243-302 | Reading to the end gives the range, for every cache size and whenever the loads are run |
| LogReplay.RecordedOnFile | ddff/ControlBlock.cxx:60-83 | Every block of a recorded stream passes the tests on checksum and stream |
| LogReplay.ReplayStretch | ddff/FileWithSegments.cxx:422-459 | A reader sent to a stretch, with jobs of earlier ranges still under way or not, delivers it with the same exact condition |
| LogReplay.ReadBack | ddff/FileStreamRead.cxx:102-191 | A reader on a recorded stream delivers what was written from the first item on |
| MessageBuffers.DDFFMessageBuffer.constructor | ddff/DDFFMessageBuffer.cxx:34-44 | A spare buffer, set up for a stream |
| MessageBuffers.DDFFMessageBuffer.Write | ddff/DDFFMessageBuffer.cxx:78-87 | Data goes behind the data |
| MessageBuffers.DDFFMessageBuffer.ZeroUnused | ddff/DDFFMessageBuffer.cxx:89-94 | The rest of the buffer is zero, the data unchanged |
| MessageBuffers.DDFFMessageBuffer.Assign | ddff/DDFFMessageBuffer.cxx:46-61 | A copy has the same data and takes the start of the stretch over, if the data fit; otherwise nothing changes |
| MessageBuffers.DDFFMessageBuffer.MarkOffsets | ddff/DDFFMessageBuffer.hxx:84-96 | The first object and the start of a stretch are marked once |
| MessageBuffers.DDFFMessageBuffer.WriteHeader | ddff/ControlBlock.cxx:26-45 | The buffer becomes the encoded block |
| StreamWriting.FileStreamWrite.constructor | ddff/FileStreamWrite.cxx:30-68 | A new stream is the model's new writer |
| StreamWriting.FileStreamWrite.Increment | ddff/FileStreamWrite.cxx:149-179 | One byte, as the model says |
| StreamWriting.FileStreamWrite.WriteData | ddff/FileStreamWrite.cxx:200-237 | Data over any number of buffers, as the model says |
| StreamWriting.FileStreamWrite.MarkItemStart | ddff/FileStreamWrite.cxx:293-306 | As the model says |
| StreamWriting.FileStreamWrite.MarkNewSegment | ddff/FileStreamWrite.cxx:308-311 | As the model says |
| StreamWriting.FileStreamWrite.CloseOff | ddff/FileStreamWrite.cxx:93-140 | A copy, or in the end the buffer itself, joins the list |
| StreamWriting.FileStreamWrite.GetBufferToWrite | ddff/FileStreamWrite.cxx:239-260 | The first buffer becomes the block image, and the number goes up only behind a full one |
| StreamWriting.FileStreamWrite.BlockDone | ddff/FileStreamWrite.cxx:262-280 | Where the last block is and whether it is rewritten |
| FileHandling.FileHandler.CreateWrite | ddff/FileHandler.cxx:113-127 | A new stream, with its writer, of the next number and the size asked for, or the one of the file; none in a file that is only read |
| FileHandling.FileHandler.BufferWriteInformation | ddff/FileWithSegments.cxx:305-331 | A start is recorded for streams from 2 on; otherwise the result tells whether the assertions hold |
| FileHandling.FileHandler.WriteBlock | ddff/FileHandler.cxx:239-300 | The file's part in a write job |
| FileHandling.FileHandler.ServeJob | ddff/FileHandler.cxx:228-306 | One write job, on buffers and file, is the model's step |
| FileHandling.FileHandler.ProcessWrites | ddff/FileHandler.cxx:228-309 | The loop does all jobs, and the file is what the model says |
| SegmentFiles.SuffixedApart | ddff/FileWithSegments.cxx:488-490 | Different suffixes give different names |
| SegmentFiles.FileWithSegments.NameRecording | ddff/FileWithSegments.cxx:480-492 | The loop ends with the name asked for, if free, or else the first free numbered one |
| SegmentFiles.FileWithSegments.StartStretch | ddff/FileWithSegments.cxx:261-303 | A named stretch starts with no places reported |
| SegmentFiles.FileWithSegments.AllWritten | ddff/FileWithSegments.cxx:343-346 | Complete exactly if every recorder has written up to the tick |
| SegmentFiles.FileWithSegments.FillStarts | ddff/FileWithSegments.cxx:369-388 | Recorders are made clean; those without data keep the start of the stretch before |
| SegmentFiles.FileWithSegments.CompleteTag | ddff/FileWithSegments.cxx:369-408 | The tag is added exactly when every recorder with data was reported |
| SegmentFiles.DirtyStartIsReported | ddff/FileWithSegments.cxx:379-393 | A recorder with data is always reported, so completing does not fail |
| Recordings.CompleteKeeps | ddff/FileWithSegments.cxx:331-417 | Completing a stretch: whoever recorded in it has the reported start in the new tag, everybody else the place of the tag before, and nothing waits to be written |
| Recordings.ActKeepsRecording | ddff/FileWithSegments.cxx:261-417 | Starting a stretch, recording an item, a write job, completing a stretch: each keeps all recorders and all tags right |
| Recordings.EveryRecordingFits | ddff/FileWithSegments.cxx:261-417 | Over every recording, whoever records in whichever stretches: the tag of a stretch holds, for each recorder, the place where the last stretch up to it began in which that recorder recorded something, and for one that never did the first byte behind a header at the start of the file |
| Recordings.NoUnmarkedBlock | ddff/FileWithSegments.cxx:317-328 | No block of a recorder goes to file that was asked for a start and not marked, so the assertions for such a block are never met in a recording |
| Recordings.TagOfFile | ddff/FileWithSegments.cxx:369-388 | The places that the object FileWithSegments computes for a tag are those of the recording |
| CycleReplays.CycleReplayIs | ddff/FileWithSegments.cxx:422-459 | What a recorder is given for a cycle, in all cases in which it recorded something up to it: the bytes from the start of its last stretch with data to the start of its next one, or to the end of the data of the block it started in, whichever is further on |
| CycleReplays.NoStartReplay | ddff/FileWithSegments.cxx:373-377 | A recorder that recorded nothing up to a cycle is sent to the start of the file: the block there is not its own, or it is given data of later cycles |
| CycleReplays.CycleReplayIffSeparate | ddff/FileWithSegments.cxx:422-459 | Over every recording: a recorder is given exactly the data of a cycle if and only if it recorded something in it and, unless it is the last cycle, its data in the next cycle begin behind the data of the block where the cycle began, or, when it recorded nothing in the next cycle, its data end with that block |
| CycleReplays.ReplayCycle | ddff/FileWithSegments.cxx:422-459 | A reader that is spooled to a cycle delivers this, whatever the size of its cache and whenever the loads are run |
| LostCycles.NextCleanLosesData | ddff/FileWithSegments.cxx:373-377 | A cycle with more data than fit in a block, before a cycle without data: what comes behind the first block is lost |
| LostCycles.LosingLoses | ddff/FileWithSegments.cxx:373-377 | A recording with 40 bytes in the first cycle and none in the second: some of the 40 bytes are lost, and the second cycle is replayed with data |
| LogReplay.LastIsReadable | ddff/FileWithSegments.cxx:429-451 | The last stretch can be read up to the end of the file |
| EventReplay.OutWhenDue | ddff/DDFFDataRecorder.cxx:285-305 | Over every series of calls, at whatever times: an event was written exactly if it and all events before it are due at the latest of the times |
| EventReplay.DueEventsAreOut | ddff/DDFFDataRecorder.cxx:285-305 | For events in the order of their ticks, and a clock that does not run over: the events written are those whose shifted tick is due |
| EventReplay.CallsAddUp | ddff/DDFFDataRecorder.cxx:285-305 | The events of a call follow those of the calls before, without gap and each once |
| EventReplay.DDFFDataRecorder.ReplayEvents | ddff/DDFFDataRecorder.cxx:285-305 | The loop writes the events that are due, each with its own contents at the tick it was recorded, shifted by the start of the replay, modulo 2^32, and returns their number |
| EventReplay.DDFFDataRecorder.ChannelReplay | ddff/DDFFDataRecorder.cxx:259-319 | One call: nothing at the end of the stream, the due events at their shifted ticks, or one item whose shifted tick and span must be those of the call |
| ChannelOrganisers.FirstWriterLeads | dueca/ChannelOrganiser.cxx:180-190 | Over every run of events the first end that reported writing is the master, for good |
| ChannelOrganisers.RegisteredEndsAreListed | dueca/ChannelOrganiser.cxx:109-177 | Over every run the ends in the list are those that registered and did not leave since, each once |
| ChannelOrganisers.LinksAreTold | dueca/ChannelOrganiser.cxx:139-156 | What the updates say: one end sends to another exactly if it was told to and neither was deleted since |
| ChannelOrganisers.DestinationsComeLast | dueca/ChannelOrganiser.cxx:126-156 | An end that is given a destination has its master and was not given that destination before; the destination has its identity |
| ChannelOrganisers.ChannelOrganiser.HandleEvent | dueca/ChannelOrganiser.cxx:93-218 | After every event the updates sent so far say exactly this: the registered ends have an identity and, once there is a master, they all know it and each of them sends to each other one; every identity that was sent carries the name of the channel |
| ChannelOrganisers.ChannelOrganiser.ConnectWithOthers | dueca/ChannelOrganiser.cxx:138-156 | A new end is connected with all ends before it, both ways |
| ChannelOrganisers.ChannelOrganiser.TellEnd | dueca/ChannelOrganiser.cxx:193-214 | An end is told the master and is connected to all others |
| ChannelManagers.NameKeepsItsId | dueca/ChannelManager.cxx:223-250 | A name keeps the organiser it got, and its identity looks up to the name, if and only if the name is not the empty one |
| ChannelManagers.RequestsAreTidy | dueca/ChannelManager.cxx:223-241 | After every series of requests each identity given out is the place of its organiser, and no two have one name |
| ChannelManagers.ChannelManager.HandleChannelConfigurationRequest | dueca/ChannelManager.cxx:209-250 | A request makes an organiser if need be, reaches the one of its name, and no other changes; its identity looks up to the name, and every identity its organiser sent carries that name |
| RunQueues.LessIsAboutKeys | dueca/ActivityManager.cxx:94-110 | For all items: the comparison is the sign of the difference of the keys, in 32 bits |
| RunQueues.OldItemLooksLess | dueca/ActivityManager.cxx:94-110 | Keys 2^31 apart: the item that waits longer counts as less important |
| RunQueues.RunsAreFair | dueca/ActivityManager.cxx:783-809 | Over every run, with keys less than 2^31 apart, the queue is in order, nothing is lost or doubled, and an item overtakes an earlier one only with a larger key |
| RunQueues.OvertakingIsBounded | dueca/ActivityManager.cxx:94-110 | An item that overtakes starts later by less than the difference in order allows |
| RunQueues.RunQueue.Schedule | dueca/ActivityManager.cxx:783-809 | The loop from the tail finds the place of a new item; without priority it goes to the end |
| RunQueues.RunQueue.PopAfter | dueca/ActivityManager.cxx:367-378 | The first item leaves the queue |
| ActivityLogs.LogRoundTrip | dueca/ActivityLogExtra.cxx:65-103 | A packed log is unpacked as it was, whatever follows it |
| ActivityLogs.ActivityLog.PackBits | dueca/ActivityLogExtra.cxx:130-138 | As many bits are packed as fit completely |
| ActivityLogs.ActivityLog.PackData | dueca/ActivityLogExtra.cxx:116-162 | The header and the longest series of bits that fits go behind what was in the store, with their number; it fails only if not even one bit fits |
| ActivityLogs.Restore | dueca/ActivityLogExtra.cxx:83-103 | Restoring a log is its decoding, and fails exactly if bytes are missing |
| ActivityLogs.ActivityLog.AppendActivityBit | dueca/ActivityLogExtra.hxx:25-27 | A log takes bits up to the largest number it can count |
| DataClasses.SameAccessIffOnce | dueca/DataClassRegistry.cxx:158-182 | From an index to the name and back it works exactly if no earlier member has the name; access by name and by index agree exactly on names that occur once |
| DataClasses.AllNamedIsLast | dueca/DataClassRegistry.cxx:252-274 | The map by name holds the last member of each name |
| DataClasses.DataClassRegistry.CompleteIndices | dueca/DataClassRegistry.cxx:249-280 | Completing a class counts its members and those of its ancestors, once |
| DataClasses.DataClassRegistry.AddInherited | dueca/DataClassRegistry.cxx:259-273 | Members of the parent are added unless the class has a member of that name |
| DataClasses.DataClassRegistry.GetMemberAt | dueca/DataClassRegistry.cxx:171-182 | By index the members of the ancestors come first |
| DataClasses.DataClassRegistry.GetMemberNamed | dueca/DataClassRegistry.cxx:158-169 | By name the member of the nearest class is found |
| DataClasses.DataClassRegistry.SearchMember | dueca/DataClassRegistry.cxx:184-205 | Searching finds the first member of a name, counting from the root |
| DataClasses.DataClassRegistry.IsCompatible | dueca/DataClassRegistry.cxx:296-306 | Compatible are the class itself, its ancestors, and the empty name |
| RingProtocol.StepIsBarrier | dueca/IPAccessor.cxx:788-833 | In a step in which the master moves to the next cycle, every node has accepted that cycle from every other sender |
| RingNode.TakenIsSupplied | dueca/IPAccessor.cxx:837-880 | A node takes data only when it sends and the data before was accepted, and then what its packers have |
| RingNode.MissedMeansAgain | dueca/IPAccessor.cxx:761-833 | A round in which some node says it missed data is gone through without success: the master keeps its data and starts again under the next repeat number |
| RingProgress.CycleCanComplete | dueca/IPAccessor.cxx:320-833 | From every state of a ring of any size that keeps the invariant, also in the middle of a round or after timeouts, there is a run after which the master is at the next cycle and every node has accepted one payload more from every other one |
| RingProgress.EveryRunCanAdvance | dueca/IPAccessor.cxx:320-833 | Every run of a ring of any size can be continued to the next cycle of the master |
| RingProgress.CyclesGoOn | dueca/IPAccessor.cxx:320-833 | For all n and m there is a run of n nodes after which the master is at cycle m + 1 and every node accepted m payloads from every other one |
| RingProgress.RoundCompletes | dueca/IPAccessor.cxx:691-833 | A round that all nodes start in step ends, with data of all, confirms from the last to the first, and the master at the next cycle |
| RingProgress.BrokenOffCatchesUp | dueca/IPAccessor.cxx:569-660 | A follower that was anywhere in its round comes to wait for the master again |
| RingProgress.InStepTakesFirst | dueca/IPAccessor.cxx:601-615 | A follower in step takes the first of the queued packets of the master |
| RingConfirms.StepKeepsChain | dueca/IPAccessor.cxx:493-548 | In every step a node confirms only after a confirm of the node behind it that is not older than its own round |
| RingConfirms.ConfirmsRunDown | dueca/IPAccessor.cxx:493-548 | In every state of every run: where a node confirmed a round, every node behind it, up to the last but one, confirmed that round or a later one |
| PacketNumbers.WordIs | dueca/IPAccessor.cxx:676-687 | The word of a number, and the words of the next repeat and the next cycle, bit for bit |
| PacketNumbers.WordsCountUp | dueca/IPAccessor.cxx:676-687 | Words of successive tries and cycles count up by 1 and by 0x1000 |
| PacketNumbers.RetriesCount | dueca/IPAccessor.cxx:676-687 | After k retries, with k below 4096, the number is repeat k of its cycle |
| FillRates.PackedWhileTheyFit | dueca/FillPacker.cxx:127-178 | Packing goes on until an object does not fit; what waits is the rest, in order |
| FillRates.RoomIsUsed | dueca/FillPacker.cxx:180-248 | A message with 32 bytes of room or more takes all there is, or exactly as many bytes as it has room for |
| FillRates.SmallestRoom | dueca/FillPacker.cxx:180-248 | Room for 31 bytes gives nothing; room for 32 gives bytes whenever any wait |
| FillRates.StoreIsSent | dueca/FillPacker.cxx:200-240 | As long as a store lasts every message takes as much of it as it has room for |
| FillRates.CallUsesRoom | dueca/FillPacker.cxx:180-248 | In every run a message of 32 bytes or more is filled, or the store it is cut from has been sent completely |
| FillFraming.FrameLayout | dueca/FillPacker.cxx:127-178 | The bytes of a frame: kind, channel and length, each at its place |
| FillUnpackers.LocalIs | dueca/FillUnpacker.cxx:230-330 | Objects are handed on exactly if their channel has an end here, in the order in which they came |
| EventReplay.EachAtItsTime | ddff/DDFFDataRecorder.cxx:259-319 | Over every series of calls entry i of what was written has the contents of item i and its tick, less the tick of the recording, plus the start of the replay, modulo 2^32 |
| ChannelOrganisers.MeshIs | dueca/ChannelOrganiser.cxx:138-214 | What the updates have to say, said end by end |
| ChannelManagers.FirstIdentity | dueca/ChannelManager.cxx:223-250 | The first channel gets identity 3 |
| ChannelManagers.NextIdentity | dueca/ChannelManager.cxx:223-250 | A new name gets the identity behind the last one, a known name none |
| Bytes.BigEndianDigit | dueca/AmorphStore.cxx:24-36 | Byte i of k is the digit of weight 256^(k - 1 - i) |
| Bytes.FirstByteDecides | dueca/AmorphStore.cxx:24-36 | Of two strings of one length, the first byte that differs decides which number is larger |
| Bytes.WordLayout | dueca/AmorphStore.cxx:24-36 | The bytes of 16-bit and 32-bit numbers, with the highest first |
| ControlBlocks.FieldSlices | ddff/ControlBlock.cxx:60-83 | Where each field of the header is |
| ControlBlocks.ChangedByteIsFound | ddff/ControlBlock.cxx:26-45 | A block with one changed byte behind its checksum fails the test |
| ControlBlocks.Polynomial | ddff/ControlBlock.cxx:26-45 | The polynomial of the checksum and its start value |
| RingWire.ControlLayout | dueca/IPAccessor.cxx:892-904 | Where each byte of the control information is |
| RingWire.TimingRoundTrip | dueca/IPAccessor.cxx:1135-1169 | Followers get the tick and the offset that the master sent, also an offset below zero |
| RingWire.TimingLayout | dueca/IPAccessor.cxx:924-943 | The tick comes before the offset, each with its highest byte first |
| SegmentFiles.SuffixIs | ddff/FileWithSegments.cxx:480-492 | A numbered name is the name, an underscore and the number in six digits, or in as many as it has |
| ActivityLogs.BitLayout | dueca/ActivityBit.cxx:87-94 | Where each byte of an activity bit is |
| ActivityLogs.LogLayout | dueca/ActivityLogExtra.cxx:116-162 | Where the header, the number of bits and each bit of a log are |
| StreamReaders.PushRequestsBounded | ddff/FileStreamRead.cxx:193-203 | Asking for blocks never brings more into memory than the cache holds |
| StreamReaders.RunOneBounded | ddff/FileStreamRead.cxx:102-190 | Loading a block that was asked for keeps the buffers within the cache |
| StreamReaders.RangeBounded | ddff/FileStreamRead.cxx:372-402 | Blocks on their way for an earlier range do not count against the cache |
| LogReplay.UnusedIsZero | ddff/FileStreamWrite.cxx:92-125 | After any session the blocks of each stream on file are numbered from 0, and what a block does not use is zero |
| DataClasses.LineageIsUpward | dueca/DataClassRegistry.cxx:296-306 | The lineage of a class is what is found step by step from parent to parent |
| DataClasses.IndicesAreInherited | dueca/DataClassRegistry.cxx:171-182 | A class has the members of each ancestor at the same indices as the ancestor itself |
| RingNode.WhatIsSent | dueca/IPAccessor.cxx:837-905 | A node sends exactly when it is its turn: under its own number, with its missed flag, the data not accepted yet or else new data |
| IndexScans.ScanFinds | ddff/FileHandler.cxx:171-214 | In any file the scan finds for a stream its first block, the size told there, and the first of its blocks without a link |
| IndexScans.ScanSucceeds | ddff/FileHandler.cxx:171-214 | The scan of any file succeeds if and only if no block has size 0 and the first block of every stream is numbered 0 |
| LogSegments.OnlyRecordersAreTagged | ddff/FileWithSegments.cxx:305-331 | In every session the streams below 2 never get into a tag |

## Left out

- Sockets, `select`, timing, clock synchronisation and delay estimation: how a wait ends (packet, timeout, packet too short) is an event of the model.
- Liveness of the ring: every run can be continued to the next cycle, but whether it is depends on the network, which may lose everything.
- RingNode.OnNothing: one step stands for the end of one blocking wait; the loops of the despatch functions around the waits are not modelled as loops.
- IPAccessors.IPAccessor.PackWork: the data of the packers and the fill packer come as parameters, and one output store stands for the list of stores.
- FillPackers.FillPacker.StuffMessage: the build without send identification (`FILLPACKER_SEND_ID`) is modelled.
- FillTransfer.Conservation: an object that does not fit an empty store stops the packer for good, as in the source, where a choked store is not reset on that path; such objects and those behind them are not sendable.
- Channel entries, packers of regular data and the objects themselves: objects are byte strings.
- Reopening a file to append to it: the source positions its counters in a way the session model does not cover.
- LogSessions.SessionKeepsStore: sessions start from an empty file, and streams are created in the session.
- LogRuns.StepKeepsStore: a write job is one step; nothing else happens to the file within it.
- StreamReading.FileStreamRead.RunLoads: the file does not change while a range is read; a reader that is told of blocks written later is not modelled, nor is the adaptive preloading.
- StreamReaders.RunOneKeeps: loaded buffers are values; their reuse as spare buffers is not visible.
- LogReading.RoundTrip: the first item must have at least one byte behind its mark, as the iterator steps past the end of the buffer otherwise.
- FileHandling.FileHandler.ProcessWrites: writers ask for jobs in the model's steps; the call from the writer object back to its handler is not modelled as a call.
- StreamWriters.Write: the allocation of spare buffers cannot fail.
- Inventory of named streams, file opening modes, msgpack encoding of tags and objects, wall clock times.
- SegmentFiles.FileWithSegments.CompleteTag: the writing of the tag itself to stream 1 is not modelled.
- SegmentFiles.FileWithSegments.StartStretch: asking the recorders for a start is an act of `Recordings`; bringing the inventory up to date is not modelled.
- Threads, locks and condition variables: the interleavings are those of the steps.
- AmorphStores.AmorphStore.InternalCheckForRoom: index and size are added without running over 32 bits, as they do not in stores below 2^31 bytes.
- Recordings.ActKeepsRecording: a stretch is started when the one before is completed, items are recorded within stretches, and all recorders are there from the start; closing the file at the end is not modelled.
- EventReplay.OutWhenDue: no shifted tick may be the largest one, which stands for no tick.
- ChannelOrganisers.ChannelOrganiser.HandleEvent: an end does not register twice, and only a registered end is removed.
- ChannelManagers.NameKeepsItsId: fewer channels are requested than there are 16-bit identities.
- DataClasses.DataClassRegistry.CompleteIndices: all ancestors are registered; the exception for a missing one is not modelled.
- ActivityLogs.ActivityLog.PackData: the linked list of bits is a sequence.
- RunQueues.RunQueue.Schedule: the doubly linked list of items is a sequence; the despatch of an item is not modelled.
