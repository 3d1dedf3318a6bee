# A Dafny model of the rtl8192e driver's protocol machinery

The project models the parts of the RTL8192E wireless driver that carry real protocol or
device logic, and proves what the driver relies on them for. `dafny verify dfyconfig.toml`
checks the whole project.

| file | what it holds |
|---|---|
| `Basics.dfy`, `SequenceNumbers.dfy` | bytes and words; 12-bit sequence numbers, half-range comparison against unbounded numbers |
| `RxReorder.dfy`, `RxStalls.dfy`, `RxNothingLost.dfy` | the receive reorder buffer as values, and its refinement of an ideal buffer with unbounded numbers; when it leaves frames with no timer; what it accepts it delivers or keeps |
| `BlockAck.dfy` | Block Ack records, action frames and their bytes |
| `TrafficStreams.dfy` | what every handler of the stream tables makes of the device state, as functions |
| `StreamInvariants.dfy` | runs of the device, the invariants every handler keeps and what follows from them |
| `Lookups.dfy`, `HandlerOutcomes.dfy` | which stream a lookup gives; what each handler changes and sends, case by case |
| `TransmitRuns.dfy` | transmit streams over whole runs: consecutive numbers, and no more requests once the peer has refused |
| `TsDevice.dfy` | the device itself: a class with the record arrays, the lists and the handlers updating them in place |
| `StreamDelivery.dfy` | each stream of a running device delivers in order, whatever else the device does |
| `TidFolding.dfy` | the TID of an agreement against its stream, in runs with QoS support on |
| `Responder.dfy`, `Initiator.dfy` | what either end of Block Ack keeps, across removals of the other's streams |
| `TwoParty.dfy`, `TwoPartyRuns.dfy` | the two over a network that loses, duplicates and reorders; runs in which they fall apart |
| `ListNodes.dfy` | the links of the receive record lists, as initialised and as meant |
| `RfPages.dfy`, `ChannelSwitch.dfy` | paged RF registers with a shadow of register 0; the channel-switch interpreter |
| `HtRates.dfy`, `Dot11d.dfy` | HT rate negotiation; country elements and the channel map |
| `Fragments.dfy`, `Eeprom.dfy` | firmware and command fragmentation; the serial EEPROM |

Streams. Each handler (a frame received, a timer callback, a lookup, a removal, the transmit and
the receive path) is one atomic step. The functions of `TrafficStreams` say what a step makes of
the state; the methods of `TsDevice.Device` do it in place and are proved equal to them; runs are
sequences of steps from the initialised state, with capabilities and interface mode free to change
at every step unless a statement fixes them; in the two-party model the mode of A and its support for
QoS stay fixed, and nothing else does. A delivered frame is logged with the stream it came through,
which the stack does not see. A timer is a flag: armed or not. Stream records are
elements of the two fixed arrays and lists hold their indices; a node of the reorder pool is a value
that carries its index. The numbers a receiver sees are 12 bits; the frames of a run carry their own
unbounded numbers, and the ideal buffer works on those.

Registers and chips. What the driver writes goes to a model of the hardware behind it: the RF chip
acts on three-wire words and read strobes, the EEPROM on the edges of its clock line. Sent frames,
register writes and commands are logs that only grow.

## What turned out not to hold

The model does what the code does; where a property one would expect fails, the condition under
which it holds is proved instead.

- Initialisation of the receive lists (`src/rtl819x_TSProc.c:230`): the loop over the transmit
  records appends receive record 0 to the receive unused list sixteen times. Forward, the list looks
  right afterwards, but taking its first record does not unlink it: in every run of additions and
  removals every addition takes record 0, in use or not (`ListNodes.AsWritten`). Without the append no
  record is taken while it is in use (`ListNodes.AsMeant`); the stream model starts from those lists.
  Lines 261-265 of the same function set up two timers on the transmit pointer left over from the loop
  before; the model has those timers on the receive records.
- A frame that delivers something stops the pending timer even if frames stay buffered; they then wait
  for the next arrival. From the queue, the pool and the number of a frame one can tell beforehand
  whether it leaves frames so (`RxStalls.StallExactly`, `RxStalls.StallHappens`).
- A response need not answer the request it is taken for. After A has removed B's streams its tokens
  start from 1 again, so any acceptance with token 1 that B ever sent for the TID makes A hold an
  agreement for a request B has not received (`TwoPartyRuns.StaleResponseTaken`,
  `TwoPartyRuns.StaleAnswerExists`). Exactly which acceptances are taken is `TwoParty.TakenExactly`;
  within one life of a stream a token names a request up to 256 requests and no further
  (`TwoParty.TokensUnique`).
- B's record may be older than A's agreement: after a late copy of an earlier request B's record has
  token 1 while A holds token 2 (`TwoPartyRuns.OlderRecordHappens`). A request that is delivered once
  more leaves B with A's token exactly if it is the one A's agreement answers
  (`TwoParty.StaleRequestExactly`). What A holds is therefore compared with what B stored at some time
  of the run.
- A refusal does not always end the asking. A late response of another token lets a second attempt start
  while a request is still pending; if its delay timer runs when the refusal comes, one more request goes
  out (`TransmitRuns.RefusalIsFinal`, `TransmitRuns.SecondAttempt`).
- Writing register 0 with a page bit set breaks the flat view of the RF registers
  (`RfPages.PageBitsExactly`).
- The highest MCS rate is the best member of the set exactly when MCS 0 is a member or some member
  rates above it (`HtRates.BestExactly`, `HtRates.NotAMember`); after filtering it always is. The rate
  table for 20 MHz and long guard interval (`src/rtl819x_HTProc.c:27-31`) lacks the entry for MCS 19,
  so its later entries stand one place early and the last is zero; the model has it that way.
- `fw_download_code` delivers the byte swap of every image of a length exactly when the length is a
  multiple of four (`Fragments.WholeWordsExactly`); the images of the driver are.
- Channel 161 can never come from a country element, because the bound counts one channel too many:
  the element that names channel 161 alone is refused (`Dot11d.LastChannelRefused`). Channels 1 to 160
  can all come from one (`Dot11d.CountryMap`).

An attempt that is started on a stream with an agreement, as no caller does, can lose its pending
record to the inactivity timeout and is then ended only by a frame of the peer or a removal
(`StreamInvariants.StrandedExactly`, `StreamInvariants.StrandedUntilPeer`).

## Model

| member | source | states |
|---|---|---|
| SequenceNumbers.SnLessIsLess | src/rtllib.h:752-753 | within half the number space the 12-bit comparisons decide the order of the unbounded numbers, both ways |
| SequenceNumbers.NearestIsUnique | src/rtllib.h:752-753 | within half the number space a 12-bit number stands for one unbounded number only |
| RxReorder.ArriveRefines | src/rtllib_rx.c:541-702 | receiving a frame is one step of the ideal buffer on the frame's own number: same window, same buffered frames, same timer, same deliveries |
| RxReorder.TimeoutRefines | src/rtl819x_TSProc.c:70-119 | an expiry is the step of the ideal buffer that gives up on what is missing before the oldest frame |
| RxReorder.RunRefines | src/rtllib_rx.c:541-702 | so are whole runs of arrivals and expiries |
| RxReorder.IdealRunOrder | src/rtllib_rx.c:541-702 | the ideal buffer delivers, in strictly increasing order and inside the window's way, only frames it was given |
| RxReorder.InOrderDelivery | src/rtl819x_TSProc.c:70-119 | from a reset stream, with arrivals within half the number space of the window, all frames ever delivered were received and their numbers strictly increase; every buffered frame stays strictly ahead of the window start |
| RxNothingLost.AcceptedStays | src/rtllib_rx.c:541-702 | a frame the ideal buffer accepts at some point of a run is delivered in the run or still buffered at its end |
| RxNothingLost.NothingLost | src/rtllib_rx.c:541-702 | so is a frame the driver's buffer accepts, from a reset stream and with arrivals within half the number space of the window: none is lost |
| RxReorder.ArriveKeepsQueue | src/rtllib_rx.c:541-702 | whatever number arrives, buffered frames stay in order, strictly ahead of the window start and inside the window |
| RxReorder.TimeoutKeepsQueue | src/rtl819x_TSProc.c:70-119 | so does an expiry |
| RxReorder.TimerRecords | src/rtllib_rx.c:682-701 | after an arrival the timer runs only if nothing was delivered, and the timeout number is the window start at the time it was armed, 0xffff when it is off |
| RxReorder.PendingFits | src/rtl819x_TSProc.c:104-108 | at most 63 frames are buffered, so the 128 places of the indication arrays are never exceeded |
| RxReorder.TimeoutDeliversOldestRun | src/rtl819x_TSProc.c:70-119 | one expiry delivers exactly the maximal run of consecutive numbers at the oldest end, keeps the rest in order, moves the window start past the last delivered, returns the nodes and leaves no timeout number |
| RxStalls.StallExactly | src/rtllib_rx.c:559-701 | a condition on the queue, the pool and the number of the frame, before it arrives, that holds exactly when the arrival leaves frames buffered with no timer |
| RxStalls.StallHappens | src/rtllib_rx.c:682-701 | frames 0, 2, 4, 1 leave frame 4 buffered with no timer |
| RxReorder.ArriveConserves | src/rtllib_rx.c:609-679 | an arrival only moves pool nodes between the free list and the stream |
| RxReorder.TimeoutConserves | src/rtl819x_TSProc.c:72-97 | so does an expiry |
| StreamDelivery.HandleFollows | src/rtllib_rx.c:541-702 | any event of the device but the removal of the peer does to a stream in use what its own buffer does on a frame for it or its timer, and nothing otherwise |
| StreamDelivery.StreamRun | src/rtllib_rx.c:541-702 | over whole runs of the device a stream's queue and deliveries are those of its buffer run alone on its own events |
| StreamDelivery.NumberingExists | src/rtllib.h:752-753 | every sequence of frames has a numbering with each frame within half the number space of the window |
| StreamDelivery.NumberingIsUnique | src/rtllib.h:752-753 | and only one from a given first number |
| StreamDelivery.StreamDeliversInOrder | src/rtllib_rx.c:541-702 | from the lookup that adds a receive stream, through any run of the device that does not remove the peer, the stack gets through that stream only frames received for it, in strictly increasing order |
| StreamDelivery.AddsThenReceives | src/rtllib_rx.c:1225-1332 | the first frame of a stream is received as if the stream had been added before |
| BlockAck.BuildAddBa | src/rtl819x_BAProc.c:124-147 | the nine bytes appended for a request or a response are those of the frame |
| BlockAck.ParamRoundTrip | src/rtl819x_BAProc.c:136-138 | the four fields of the parameter set survive packing |
| BlockAck.RequestRoundTrip | src/rtl819x_BAProc.c:293-295 | the receiver of a request reads the token, parameters and timeout that were sent |
| BlockAck.ResponseRoundTrip | src/rtl819x_BAProc.c:373-376 | the receiver of a response reads the token, status, parameters and timeout that were sent |
| BlockAck.FrameBytes | src/rtl819x_BAProc.c:119-213 | the bytes of a request, a response and a DELBA, each field at its place, low bytes first |
| TrafficStreams.FirstIn | src/rtl819x_TSProc.c:344-349 | the walk over a list finds a stream with the key if and only if there is one |
| StreamInvariants.SearchFinds | src/rtl819x_TSProc.c:311-358 | the search over all directions is a search for the one direction streams of that mode and side are given |
| Lookups.SearchAnyDirection | src/rtl819x_TSProc.c:304-359 | over any list the search finds a stream of the peer, the TSID and one of the directions searched for mode and side, the one of the least direction code first, if and only if there is one |
| Lookups.LookupExactly | src/rtl819x_TSProc.c:387-508 | a lookup gives nothing for a group address or, with QoS support, a TID above 7; otherwise the stream in use for the peer, side and access class of the TID ({0,3}, {1,2}, {4,5}, {6,7} with QoS support, all TIDs without) if there is one; otherwise, if asked to add, the first unused record, reset, and nothing if none is left; nothing else changes |
| Lookups.SameRecordExactly | src/rtl819x_TSProc.c:402-434 | a later lookup of the same peer and side, in the same mode and with the peer's streams kept, gives the same record exactly if the two TIDs are of one class |
| Lookups.SameClassExactly | src/rtl819x_TSProc.c:421-433 | with QoS support on, two TIDs are of one class exactly if they are the same below 8 or one of the four pairs; with it off always |
| StreamInvariants.GetTsKeeps | src/rtl819x_TSProc.c:436-499 | adding a stream keeps every invariant of the tables, unique keys included |
| StreamInvariants.HandleKeeps | src/rtl819x_TSProc.c:387-648 | every handler, under any capabilities, keeps the invariants of lists, records, keys, timers and pool |
| StreamInvariants.StreamsPartitioned | src/rtl819x_TSProc.c:187-282 | in every reachable state each record is in exactly one of its unused and admit lists, once, the pending lists are empty, and no two streams in use share a key |
| StreamInvariants.PoolPartitioned | src/rtl819x_TSProc.c:284-290 | in every reachable state every pool node is in exactly one place, the free list or one stream, once |
| StreamInvariants.UnusedIsQuiet | src/rtl819x_TSProc.c:510-557 | in every reachable state an unused record has no timer armed, no valid agreement and no buffered frame |
| StreamInvariants.AttemptNeverStuck | src/rtl819x_TSProc.c:634-648 | an attempt in progress has its delay timer armed or its pending record valid, so a timer will end it; a pending record is valid exactly while its setup timer runs |
| StreamInvariants.StrandedExactly | src/rtl819x_BAProc.c:608-628 | an attempt comes to have no timer of its own stream left exactly by the inactivity timeout of an agreement while a request of it is out |
| StreamInvariants.TeardownNamesStream | src/rtl819x_BAProc.c:562-575 | removing a stream announces its own TID, once, exactly when an agreement was pending or admitted; the inactivity DELBA carries a TID that some setting of QoS support folds to it, all that holds while the setting may change |
| TidFolding.HandleFolds | src/rtl819x_TSProc.c:402-434 | with QoS support on, every event keeps all agreements, of either side, on one of the two TIDs of the class of their stream |
| TidFolding.TeardownFolds | src/rtl819x_BAProc.c:562-588 | in every state a run with QoS support on leads to, the inactivity DELBA of a transmit stream and the DELBA of a removed receive stream name one of the two TIDs of the class of the stream |
| StreamInvariants.ResponderTimerNeverRuns | src/rtl819x_BAProc.c:336 | a responder's inactivity timer is never armed, so its callback changes nothing |
| StreamInvariants.RemovalExactly | src/rtl819x_TSProc.c:559-632 | removal takes exactly the selected streams out of the admit list, in order, and appends them in order to the unused list, idle |
| StreamInvariants.PoolRetire | src/rtl819x_TSProc.c:528-549 | freeing the buffered frames of removed streams loses no pool node |
| HandlerOutcomes.RemovalAnnounces | src/rtl819x_TSProc.c:510-632 | removal sends one DELBA, reason 37, for each selected transmit stream with a pending or admitted agreement, naming the stream's TID, and one for each selected receive stream with an agreement, naming its TID, in the order of the lists, and nothing else |
| HandlerOutcomes.RemovalLeaves | src/rtl819x_TSProc.c:559-608 | removing one peer leaves the streams of every other entirely as they are and delivers nothing |
| StreamInvariants.LookupIsStable | src/rtl819x_TSProc.c:304-358 | once a lookup has returned a stream, every later lookup of that peer, side and priority in the same mode returns the same stream and changes nothing, through any run that does not remove the peer |
| HandlerOutcomes.RequestRefused | src/rtl819x_BAProc.c:299-317 | a request that finds Block Ack off, or neither a stream nor a record for one, changes nothing and is refused with status 37 and immediate policy |
| HandlerOutcomes.RequestOutcomes | src/rtl819x_BAProc.c:319-350 | any other has its stream, added if need be; for delayed Block Ack it is refused with status 38, for immediate Block Ack the record becomes, and the response says, token, parameters, timeout and start of the request with a buffer of 32, or of 1 for one-frame aggregation |
| HandlerOutcomes.ResponseUnclaimed | src/rtl819x_BAProc.c:379-401 | a response that finds aggregation off or no stream changes nothing and is answered with DELBA reason 38 |
| HandlerOutcomes.ResponseOutcomes | src/rtl819x_BAProc.c:403-458 | any other ends the attempt: dropped beside an agreement; DELBA 38 if no request with its token is pending; if one is, that request ends, and status 0 with immediate policy makes the agreement, from the pending start, status 0 with delayed policy gives DELBA 37 and a delayed next attempt, any other status the same and no further attempt; nothing else changes |
| HandlerOutcomes.DelBaOutcomes | src/rtl819x_BAProc.c:490-530 | a DELBA of the initiator ends the receive stream's agreement, one of the responder all the transmit stream has asked for and got, with attempt and delay timer; nothing is sent and nothing else changes |
| HandlerOutcomes.DelBaUnclaimed | src/rtl819x_BAProc.c:475-526 | a DELBA that finds Block Ack off or no stream changes nothing |
| HandlerOutcomes.DataOutcomes | src/rtllib_tx.c:338-358 | sending a frame starts an attempt exactly if there is no agreement, none is under way, the frame allows it and no refusal has come before; with an agreement its use begins once the current number has reached its start |
| HandlerOutcomes.ReachedExactly | src/rtllib_tx.c:357 | reached, in unbounded numbers at most half the number space apart: the start is not above the current number |
| HandlerOutcomes.SeqOutcomes | src/rtllib_tx.c:545-551 | taking a number advances the stream's by one, 4095 back to 0, and changes nothing else |
| HandlerOutcomes.DelayOutcomes | src/rtl819x_BAProc.c:533-559 | the delay timer sends, unless a request is out, one with the next token, immediate policy, the stream's own TID, 32 frames, no timeout and the start three numbers on, and the pending record holds just that with its setup timer armed |
| HandlerOutcomes.SetupOutcomes | src/rtl819x_BAProc.c:590-606 | the setup timer ends the pending request and the attempt and delays the next |
| HandlerOutcomes.InactOutcomes | src/rtl819x_BAProc.c:608-652 | the inactivity timer ends both records and sends DELBA 39 under the TID of the agreement; on the responder's side it never fires |
| TransmitRuns.NumbersAreConsecutive | src/rtllib_tx.c:535-553 | from the lookup that adds a stream through any run that keeps the peer's streams, its frames are numbered 0, 1, 2 and on, modulo 4096, whatever else happens |
| TransmitRuns.RefusalIsFinal | src/rtl819x_BAProc.c:443-448 | in every state runs in one mode lead to: after the refusal of its pending request reaches a stream without an agreement, no run that keeps the peer's streams sends another request for its TID, exactly if its delay timer is off when the refusal comes |
| TransmitRuns.SecondAttempt | src/rtl819x_BAProc.c:403-420 | a response with another token than the pending request's, and then a frame, arm the delay timer beside that request |
| TsDevice.Device.constructor | src/rtl819x_TSProc.c:171-292 | the loops set up the initial state, each record and pool node listed once |
| TsDevice.Device.SearchAdmitTRStream | src/rtl819x_TSProc.c:304-359 | the nested loops compute the search |
| TsDevice.Device.GetTs | src/rtl819x_TSProc.c:387-508 | the lookup in place is the lookup on values, and keeps the invariant |
| TsDevice.Device.RemoveTsEntryTx | src/rtl819x_TSProc.c:510-557 | timers off, agreement ended and announced, for a transmit record, and no other record touched |
| TsDevice.Device.RemoveTsEntryRx | src/rtl819x_TSProc.c:510-557 | the same for a receive record, its buffered nodes appended to the pool from the oldest |
| TsDevice.Device.RetireTxStreams | src/rtl819x_TSProc.c:573-582 | the loop over a list clears exactly the selected streams, in order |
| TsDevice.Device.RetireRxStreams | src/rtl819x_TSProc.c:594-602 | the same for receive streams |
| TsDevice.Device.RemoveTs | src/rtl819x_TSProc.c:559-632 | removal in place, of one peer or of all, is removal on values |
| TsDevice.Device.AddReorderEntry | src/rtllib_rx.c:460-481 | the scan from the newest end links the entry where it belongs, or finds its number there |
| TsDevice.Device.IndicateDue | src/rtllib_rx.c:652-679 | the loop takes exactly the entries that are due, in order, into the array and back to the pool |
| TsDevice.Device.RxReorderIndicatePacket | src/rtllib_rx.c:541-702 | the whole of it in place is the arrival on values |
| TsDevice.Device.RxPktPendingTimeout | src/rtl819x_TSProc.c:49-121 | the expiry in place is the expiry on values |
| TsDevice.Device.TsStartAddBaProcess | src/rtl819x_TSProc.c:634-648 | an attempt is started unless one is in progress |
| TsDevice.Device.TsAddBaProcess | src/rtl819x_TSProc.c:124-139 | the delay timer sends the request unless a record is pending |
| TsDevice.Device.TsInitAddBA | src/rtl819x_BAProc.c:533-559 | the pending record becomes the next request, with the next token and the start three numbers ahead |
| TsDevice.Device.TsInitDelBATx | src/rtl819x_BAProc.c:561-575 | both records are ended, and one DELBA is sent if either was valid |
| TsDevice.Device.RxAddBaReq | src/rtl819x_BAProc.c:270-352 | from the bytes of a request: -1 and no change for a short frame, otherwise the request handler |
| TsDevice.Device.AddBaReqReceived | src/rtl819x_BAProc.c:299-350 | refusal, invalid policy and acceptance, with the response each sends |
| TsDevice.Device.RxAddBaRsp | src/rtl819x_BAProc.c:354-460 | from the bytes of a response: no change for a short frame, otherwise the response handler; -1 exactly for a short frame or a response dropped because there is an agreement |
| TsDevice.Device.AddBaRspReceived | src/rtl819x_BAProc.c:379-458 | every way a response is dropped, rejected or taken |
| TsDevice.Device.RxDelBa | src/rtl819x_BAProc.c:462-531 | no change for a short frame, otherwise either side's agreement is ended; 0 exactly if its stream was found |
| TsDevice.Device.DelBaReceived | src/rtl819x_BAProc.c:475-530 | either side's agreement is ended, from the decoded fields |
| TsDevice.Device.BaSetupTimeOut | src/rtl819x_BAProc.c:590-606 | the attempt ends, the next one is delayed |
| TsDevice.Device.TxBaInactTimeout | src/rtl819x_BAProc.c:608-628 | both records are ended and a timeout DELBA is sent |
| TsDevice.Device.RxBaInactTimeout | src/rtl819x_BAProc.c:630-652 | the record is ended and a timeout DELBA is sent |
| TsDevice.Device.QueryAggCap | src/rtllib_tx.c:338-358 | the transmit path adds the stream, and starts an attempt or the use of the agreement |
| TsDevice.Device.QuerySeqNum | src/rtllib_tx.c:535-553 | the number returned is the stream's current one, which advances modulo 4096; 0 without a stream |
| TsDevice.Device.RxDataReceived | src/rtllib_rx.c:1220-1334 | a data frame goes to the reorder buffer of its stream |
| TsDevice.Device.Step | src/rtl819x_TSProc.c:387-648 | any event takes the device in place from state to state as runs do, and keeps the invariant |
| Initiator.AHandle | src/rtl819x_BAProc.c:403-442 | every event at the initiator, removals included, keeps its records in step with the requests it has sent since each stream was added |
| Initiator.TakenAtA | src/rtl819x_BAProc.c:403-442 | a response to success is taken exactly if a request is pending, no agreement is held, and its token counts the requests since the stream was added |
| Responder.BHandle | src/rtl819x_BAProc.c:326-337 | no event but a request of A changes what B holds for A or makes B accept anything of A |
| Responder.BReq | src/rtl819x_BAProc.c:326-337 | if B accepts a request, a record of B holds what the response says |
| TwoParty.NextKeeps | src/rtl819x_BAProc.c:270-460 | whatever happens at either end or on the network keeps the agreement invariant |
| TwoParty.HeldIsAgreed | src/rtl819x_BAProc.c:437-442 | in every world a run can lead to, an agreement held for a peer and TID answers one of the requests sent since the stream was added, the only one of them with its token up to 256, has its start sequence, and has parameters B stored for that token: immediate, same TID, buffer 1 or 32, no timeout |
| TwoParty.AdmitsLatest | src/rtl819x_BAProc.c:408-442 | the step at which an agreement comes to be held is the receipt of a response while the latest request is one sent since the stream was added; the agreement stands for that request |
| TwoParty.TakenExactly | src/rtl819x_BAProc.c:408-442 | in every such world, an acceptance B has ever sent is taken exactly if A waits for one, holds no agreement, and the token is the number of requests since the stream was added, modulo 256 |
| TwoParty.TokensUnique | src/rtl819x_BAProc.c:548 | tokens tell the requests of one life of a stream apart exactly as long as there are at most 256 |
| TwoParty.StaleRequestExactly | src/rtl819x_BAProc.c:326-330 | while A holds an agreement, a request that reaches B once more leaves B's record with A's token exactly if it carries that token; among up to 256 requests since the stream was added, exactly if it is the one the agreement answers; A does not change |
| TwoPartyRuns.StaleResponseTaken | src/rtl819x_BAProc.c:76-83 | in every world in which A has no stream for a TID and a record left, an acceptance with token 1 for it makes A hold an agreement three steps of A later, with B unchanged |
| TwoPartyRuns.StaleAnswerExists | src/rtl819x_BAProc.c:76-83 | such worlds exist, for every mode and setting |
| TwoPartyRuns.OlderRecordHappens | src/rtl819x_BAProc.c:326-330 | a run after which A holds token 2 and B's record token 1 |
| ListNodes.AsWritten | src/rtl819x_TSProc.c:224-282 | from the lists as initialised, in every run of additions and removals every addition succeeds and takes record 0 |
| ListNodes.MeantShows | src/rtl819x_TSProc.c:239-282 | from the lists as meant, after every run the links hold two lists, each record in one of them once, those in use in the admit list |
| ListNodes.AsMeant | src/rtl819x_TSProc.c:239-282 | so an addition never takes a record in use, and fails exactly when all sixteen are |
| ListNodes.RunMoves | src/rtl819x_TSProc.c:470-497 | the moves on the nodes in place are the run on the links |
| ListNodes.RunAsWritten | src/rtl819x_TSProc.c:224-282 | with the lists as initialised in place, one record per addition, all of them record 0 |
| ListNodes.TakeSlipped | src/rtl819x_TSProc.c:472-497 | record 0 is still first in the unused list after it has been taken |
| RfPages.OffsetsInjective | src/r819xE_phy.c:180-191 | the map from offsets to pages and addresses is injective on 0 to 45 |
| RfPages.ReadIsFlat | src/r819xE_phy.c:105-171 | a read returns the register at its offset, changes none, and leaves page 0 selected and the shadow right |
| RfPages.WriteIsFlat | src/r819xE_phy.c:173-237 | a write changes the register at its offset alone, and leaves page 0 selected and the shadow right |
| RfPages.RunIsFlat | src/r819xE_phy.c:105-237 | any sequence of reads and writes returns what a plain file of registers returns |
| RfPages.PageBitsExactly | src/r819xE_phy.c:212-226 | data for register 0 reads back twice exactly when its page bits are clear |
| RfPages.FieldsAreFlat | src/r819xE_phy.c:239-275 | setting a field sets that field alone, and it reads back |
| RfPages.LowestBitUnique | src/r819xE_phy.c:52-61 | the shift of a mask is determined by its lowest bit |
| RfPages.CalculateBitShift | src/r819xE_phy.c:52-61 | the loop finds the lowest bit of a mask |
| RfPages.Radio.SetBBreg | src/r819xE_phy.c:79-93 | a masked write is a read-modify-write of the field at the lowest bit of the mask |
| RfPages.Radio.Strobe | src/r819xE_phy.c:138-145 | address, falling and rising edge make the chip return the register it shows |
| RfPages.Radio.RFSerialRead | src/r819xE_phy.c:105-171 | the register writes of a read amount to the read on values |
| RfPages.Radio.RFSerialWrite | src/r819xE_phy.c:173-237 | those of a write amount to the write on values |
| RfPages.Radio.SetRFReg | src/r819xE_phy.c:239-275 | on paths C and D of every radio, and on A and B of every radio but a 1T2R one, the field or the whole register is written; on A and B of a 1T2R radio nothing changes |
| RfPages.Radio.QueryRFReg | src/r819xE_phy.c:277-298 | on the same paths the field is read; on A and B of a 1T2R radio the result is 0 and nothing changes |
| ChannelSwitch.RestHere | src/r819xE_phy.c:1013-1034 | the command at stage and step is the first of those still to be done; an End leads to the next table |
| ChannelSwitch.Switcher.RunNext | src/r819xE_phy.c:1013-1064 | for any three End-terminated tables, a call executes the next command still to be done and no other, or reports that none is left |
| ChannelSwitch.Switcher.RunAll | src/r819xE_phy.c:1067-1078 | repeated calls execute the concatenation of the tables once each in order, up to the first command after which the driver is down, and end |
| ChannelSwitch.ChannelProgram | src/r819xE_phy.c:964-1001 | for channels 1 to 14 that is one transmit-power command, on boards newer than revision 3, and one write of register 7 per path: the channel number times 128 on an RF8256; 0x085c and steps of 0x80 for channels 1 to 13 and 0x0f72 for channel 14, times 128, on an RF8225 |
| ChannelSwitch.PortWrites | src/r819xE_phy.c:1037-1046 | a port command writes the low 8, 16 or 32 bits of its second parameter to the port of the first |
| ChannelSwitch.Switcher.SwChnlStepByStep | src/r819xE_phy.c:945-1065 | an illegal channel is done at once; a channel the radio lacks makes no progress |
| ChannelSwitch.Switcher.FinishSwChnlNow | src/r819xE_phy.c:1067-1078 | the commands of the channel's tables, while the driver is up; nothing for a channel that is illegal or that the radio lacks |
| ChannelSwitch.Switcher.SwChnl | src/r819xE_phy.c:1093-1141 | on either radio and for every channel and mode: refused if the driver is down, a switch is in progress or the channel does not fit the mode; otherwise the channel's program from its first command, channel 0 meaning 1, all of it if the driver stays up |
| HtRates.FilterMcsRate | src/rtl819x_HTProc.c:750-770 | what is left is the intersection of both sets, limited to MCS 0-7 and 12-15 in N modes, 0-7 for a half-N access point, and nothing in A, B and G |
| HtRates.GetHighestMcsRate | src/rtl819x_HTProc.c:709-748 | 0 exactly for an empty set, otherwise the scan's result, with no access beyond the 77 entries |
| HtRates.BestExactly | src/rtl819x_HTProc.c:731-747 | the result is the lowest-indexed member with the highest rate exactly when MCS 0 is a member or some member rates above it |
| HtRates.NotAMember | src/rtl819x_HTProc.c:26-47 | MCS 32 alone, or MCS 31 with the first table, gives MCS 0, which is not a member |
| HtRates.PermittedAboveZero | src/rtl819x_HTProc.c:26-47 | every rate filtering can leave rates above MCS 0 |
| HtRates.NegotiateRates | src/rtl819x_HTProc.c:858-871 | after association the highest rate is the best of the negotiated rates, of MCS 0 to 7 of them under static power save, and 0 exactly if there is none |
| HtRates.RatesAreStandard | src/rtl819x_HTProc.c:26-47 | the table rates of MCS 0 to 15, the only ones filtering can leave, are those of IEEE 802.11 for their modulation, coding, streams, bandwidth and guard interval |
| Dot11d.TakenDisjoint | src/dot11d.c:135-151 | triples that are taken cover each channel once, and only channels 1 to 160 |
| Dot11d.CountryMap | src/dot11d.c:133-154 | the channels some country element can bring into the map are exactly 1 to 160 |
| Dot11d.LastChannelRefused | src/dot11d.c:140-144 | a triple within the map is refused exactly when it reaches channel 161; the element naming it alone brings nothing |
| Dot11d.Info.UpdateCountryIe | src/dot11d.c:121-166 | the channels and powers of the element are those of its good triples before the first bad one: after three bytes, first channel, number of channels and power of each in this order; state and stored element change exactly when all are good |
| Dot11d.TakenBytes | src/dot11d.c:133-151 | the triples taken, in bytes: as many as leave every first channel above all channels before and every last one below 161 |
| Dot11d.Info.ApplyPlan | src/dot11d.c:59-98 | channels 1 up to the last one of the plan, those above 11 for listening only on the global plan (10) and the world-wide one (11) |
| Dot11d.Info.Reset | src/dot11d.c:101-119 | channels 1-11 active, 12-14 passive, no power known |
| Dot11d.Info.ScanComplete | src/dot11d.c:186-205 | learned becomes done; done becomes none, with a reset map, when no country was heard |
| Dot11d.Info.IsLegalChannel | src/dot11d.c:207-219 | after an element a channel is legal exactly when a taken triple covers it, after a plan exactly when the plan has it |
| Dot11d.Info.MaxTxPower | src/dot11d.c:168-184 | after an element the power of the taken triple that covers the channel, 255 if none does |
| Dot11d.Info.ToLegalChannel | src/dot11d.c:221-246 | the channel itself if legal, else the lowest legal one; 0 exactly when there is none, since channel 0 is never in the map |
| Fragments.CutRoundTrip | src/r819xE_cmdpkt.c:60-97 | the payloads of a command make up the buffer, each of the threshold's length but the last, which is not longer nor, beside others, empty; only the last is so marked |
| Fragments.FwRoundTrip | src/r819xE_firmware.c:52-92 | for whole words the payloads make up the byte swap of the image |
| Fragments.FwWellCut | src/r819xE_firmware.c:52-92 | firmware fragments are all of the threshold's length but the last, which is not longer nor, beside others, empty; only the last is so marked |
| Fragments.SwapTwice | src/r819xE_firmware.c:71-76 | the byte swap undoes itself |
| Fragments.WholeWordsExactly | src/r819xE_firmware.c:71-76 | the device gets the swapped image for every image of a length exactly when the length is a multiple of 4 |
| Fragments.PayloadBytes | src/r819xE_firmware.c:52-92 | for an image of any length the device gets whole words; place q of them holds byte 3 - q mod 4 of its word in memory, and zero from the length of the image on |
| Fragments.Loader.SendCommand | src/r819xE_cmdpkt.c:37-100 | the loop sends the fragments in order; when a buffer cannot be allocated, those before it, and reports failure |
| Fragments.Loader.Reverse | src/r819xE_firmware.c:70-78 | the byte-swapping loop, within its buffer |
| Fragments.Loader.Download | src/r819xE_firmware.c:36-95 | the loop sends the firmware fragments in order and ends |
| Fragments.Loader.InitFirmware | src/r819xE_firmware.c:253-371 | boot, main and data image in order from any state but ready; from ready the data image kept from before, again |
| Eeprom.SpelledValue | src/rtl_eeprom.c:103-121 | the address bits, most significant first, have the address as their value |
| Eeprom.ReadCommand | src/rtl_eeprom.c:122-125 | start bit, opcode 10 and address bits make the chip read that address, once, and nothing else |
| Eeprom.Board.SendBits | src/rtl_eeprom.c:78-86 | each bit is on the line when the clock rises |
| Eeprom.Board.ReceiveWord | src/rtl_eeprom.c:131-136 | sixteen clock cycles bring in the stored word |
| Eeprom.Board.ReadWord | src/rtl_eeprom.c:88-145 | the word stored at the address, for every memory content and address in range; one read command and no other; chip select low at the end |

## Left out

- TrafficStreams.OnDelBa: starts from decoded fields, because `src/rtl819x_BAProc.c:486-488` adds to a structure pointer what are byte offsets and reads beyond the frame; the two-party model lets a DELBA arrive with any fields.
- TsDevice.Device.RxAddBaReq: takes the start sequence of a request as given, because `src/rtl819x_BAProc.c:296` reads it from beyond the frame; nothing is said about the responder's start sequence.
- TsDevice.Device.constructor: sets up the receive lists as they are meant, without the append at line 230; `ListNodes` has both.
- TsDevice.Device.DelBaReceived: takes initiator and TID as given, for the same reason as `OnDelBa`; so does `TsDevice.Device.RxDelBa`.
- TsDevice.Device.QueryAggCap: the conditions on keys and DHCP frames that allow an attempt are one flag, and the aggregation settings of the frame are not modelled.
- TsDevice.Device.RxDataReceived: the direct delivery of `src/rtllib_rx.c:1275-1325`, of frames that get no stream or arrive while reordering is off, is not modelled, so such frames are in no log; duplicate detection by the last sequence and fragment number of a stream is not modelled, nor are the subframes of a received buffer; a buffer is an opaque handle that is never null.
- ChannelSwitch.Switcher.FinishSwChnlNow: for a legal channel the radio does not have only calls during which the driver goes down, because otherwise its loop does not end; so for `ChannelSwitch.Switcher.SwChnl`. RF_8258, whose table is left unfilled, is not modelled.
- RfPages.RunIsFlat: offsets 46 to 63 have no register on the modelled chip.
- RfPages.Radio.SetRFReg: access through the firmware is not modelled.
- RfPages.Radio.QueryRFReg: access through the firmware is not modelled.
- Fragments.Loader.SendCommand: buffers shorter than 65536 bytes, because the 16-bit offset of the driver would wrap and the loop not end.
- Fragments.Loader.Download: images shorter than 65536 bytes, because the 16-bit offset of the driver would wrap and the loop not end.
- Dot11d.Info.UpdateCountryIe: elements of at least one byte, because the driver would take an empty one for 255 triples.
- HtRates.GetHighestMcsRate: filters without members from 77 on, which no caller passes; the driver would read beyond its rate table.
- HtRates.RatesAreStandard: MCS 0 to 15; the table entries from MCS 16 on are taken over from the source.
- HtRates.NegotiateRates: the rate part of association only; bandwidth, AMSDU and AMPDU settings are not modelled.
- Stream records and pool nodes are array elements and values that carry their index, so a record linked into two lists at once has no counterpart outside `ListNodes`.
- Handlers are atomic: locking in the callers is not modelled, and a timer callback never runs in the middle of another handler.
- Frame allocation in the Block Ack code always succeeds; a failed one would lose the frame as the network may.
- Traffic specification fields other than TSID and direction, and traffic classifiers.
- Delays, spin locks, DMA, descriptors and the transmit queues: sent frames go to a log.
- Vendor quirks beyond rejecting ADDBA requests and one-frame aggregation.
- Power save, key tables, power tracking, adapter start-up and the data tables of the hardware image.
