# Smart-collar firmware: protocols, queues and parsers

This project models the parts of the collar's firmware whose correctness rests on more than one
function, and proves what they keep, over whole runs where there are runs:

- **Crc16** – the checksum of the Bluetooth link (the CRC of section 6.2.2 of the MODBUS over Serial
  Line Specification and Implementation Guide V1.02): the table-free loop equals a bit-serial
  register, detects every burst of up to 16 bits, and is affine; what the swapped result means for a
  receiver.
- **FileQueue** – the directory of numbered files as a FIFO that survives failed puts, restarts of the
  reader and power failures.
- **ModemHandles** – the handle table of the SPI link, with requesters, wire, modem and receive handler
  interleaved step by step.
- **ConfigReplicas**, **SampleRequests**, **CloudBackoff**, **ShutdownProtocol** – the event-driven
  modules: copies of the configuration, the counter of outstanding samples, the reconnect delays and
  the shutdown protocol with its partly unlocked counters.
- **Json**, **Budget**, **GpsBuffer**, **Messages**, **MessageLimit**, **MlList** – messages built under a byte
  budget from queues, and when they exceed the limit all the same.
- **ShadowDocument** – reporting the shadow document and parsing it back.
- **ScanPipeline**, **ClockParser** (over **Text**, the C library's decimal conversions) – text that one
  side writes and the other reads. (**Options** holds the type of values that may be absent.)
- **FirmwareUpload** – the chunks of a firmware image.

Where the source changes state in place the model does too: classes and arrays with methods, each
proved against a function of the old state; the properties are then lemmas about those functions and
about runs made of them. Interleavings are step systems (`System`/`Queue`, `Op`, `Enabled`, `Apply`)
over the same functions.

## What the proofs found

Properties one would expect and the code does not have; each has a lemma with the exact condition.

- The checksum is byte-swapped before it is stored, so a stored trailer clears the receiver's register
  only when its two bytes are equal (`Crc16.ResidueOfStoredFrame`). The receiver reads the trailer out
  of a block it has already freed: its decision is right exactly when the bytes it finds there are
  the trailer, or both are wrong (`Crc16.ReceiverCheck`); a correct request can be refused and a damaged
  one accepted (`Crc16.MisreadWord`, `Crc16.StaleWordRefuses`).
- A file-queue put that fails leaves a gap that no item behind it ever passes until the reader is
  initialised again, and opening the reader of a used but empty queue puts it at one
  (`FileQueue.GapsStick`, `FileQueue.GapBlocks`). A reader that keeps getting receives everything unread
  exactly when no item stands behind the first slot without one (`FileQueue.DrainsIff`). A short write is reported as success: what comes out
  is the shorter item, and nothing at all after a write of no bytes. Opening the writer alone starts
  below the reader unless something is unread (`FileQueue.ReopenedWriter`).
- Handles are claimed and released without the reply lock. Two requesters can get the same handle
  (`ModemHandles.ClaimRaceHappens`); the claim is safe exactly while nobody holds the slot
  (`ModemHandles.MarkKeeps`). A wait given up too early hands its late reply to the next holder
  (`ModemHandles.LateReplyHappens`, `ModemHandles.GiveUpKeeps`). With no free handle the send function
  returns plus 125, which callers take for a handle (`ModemHandles.HandleTable.SendCommand`).
- A full message queue is purged; the application follows the configuration again exactly when a
  later event brings it (`ConfigReplicas.OverflowKeeps`), and never runs without `CONFIG_INIT`
  (`ConfigReplicas.LostInitStays`).
- A start event handled after a reboot request (the watchdog can request one before it) makes the
  utility module ignore all acknowledgements (`ShutdownProtocol.AcksCountIff`); a module that is
  just starting is not seen by the counter (`ShutdownProtocol.StarterNotSeenHappens`); two threads can emit
  two requests (`ShutdownProtocol.TwoRequests`), and do exactly when one passes the test while the
  other is inside (`ShutdownProtocol.OneRequestIffOrderly`).
- The commas between array entries are charged to nobody: a collar that sees 25 access points sends
  1992 bytes (`MessageLimit.OverLimit`); `MessageLimit.WithinLimit` has the exact condition on what is
  queued. The activity list is also not charged for its name: ten records that just fit overrun the
  budget (`MlList.TenRecordsOverrun`; exactly when, in `MlList.ListGrowsWithinBudget`). Its header is
  charged without being compared (`MlList.BudgetKept`).
- The activity list takes a peek that succeeds without data for a record: at a file whose write has
  failed it lists the last record again and again (`MlList.RepeatedRecord`); each record is listed once
  exactly when there is no such file, or no room for that record, where the reading stops
  (`MlList.EachRecordOnceIff`, `MlList.RepeatsMeans`).
- The GPS counter survives an emission only if all fixes fit or none with a zero coordinate is among
  those looked at (`GpsBuffer.CountKept`); with a wrong counter the eviction loop may not end (`GpsBuffer.EvictionEndsIff`).
- An entry of a shadow report's zones that has a flag but no name as a string does not change the flag
  (`ShadowDocument.ZoneEntry`), and a setting out of 16 bits is cut to its lower half before it is clamped
  (`ShadowDocument.DeltasOnly`). Zones come back from a shadow report exactly when each was stored under its own index
  (`ShadowDocument.ZonesComeBack`) and no extra key hides them (`ShadowDocument.ZonesComeBackIffVisible`).
- A refused data list still starts the send timer (`SampleRequests.StepKeeps`, `SampleRequests.RefusedListSends`).
- The cloud library resets the retry counter from its own thread. The counter is the number of attempts
  since the last reset, and the error comes only after all of them, exactly when that reset did not
  come in the middle of an attempt (`CloudBackoff.RacingRetries`, `CloudBackoff.ErrorDeservedIff`); for every
  limit there is a run in which it comes without an attempt since (`CloudBackoff.EarlyError`).
- The clock parser compares the day with 31 in every month, although its comment speaks of the month's
  length (`ClockParser.ParserInvertsFormat`).
- A read error ends a firmware upload with success (`FirmwareUpload.SentUpToFailure`); chunk numbers wrap
  from 64 MiB on (`FirmwareUpload.NumbersArePositions`).

## Model

| member | source | states |
|---|---|---|
| Crc16.Crc16Modbus | chekr_app/src/utils.c:20-39 | The two nested loops compute `Checksum`: the register fed byte by byte from 0xFFFF, its bytes swapped at the end. |
| Crc16.SerialIsRegister | chekr_app/src/utils.c:25-34 | The byte-wise loop is the bit-serial register of the polynomial: feeding bytes equals shifting their bits in, lowest first, for every message and start value. |
| Crc16.StepInjective | chekr_app/src/utils.c:27-33 | One shift/xor step loses nothing: two registers that step to the same one were equal. |
| Crc16.SerialLinear | chekr_app/src/utils.c:25-34 | The register is linear in start value and message over exclusive or. |
| Crc16.SixteenBitsClear | chekr_app/src/utils.c:25-34 | Of up to sixteen bits exactly the register's own clear it, and fewer than sixteen only when the cells they do not reach are clear already. |
| Crc16.BitBurstDetected | chekr_app/src/utils.c:20-39 | Two equally long bit strings that differ, and only inside 16 consecutive bits, leave different registers. |
| Crc16.BurstDetected | chekr_app/src/utils.c:20-39 | Two different messages of equal length whose bits agree outside 16 consecutive positions have different checksums, whatever surrounds the difference. |
| Crc16.AdjacentBytesDetected | chekr_app/src/utils.c:20-39 | In particular messages that differ only inside two adjacent bytes have different checksums. |
| Crc16.RegisterLinear | chekr_app/src/utils.c:25-34 | Feeding the exclusive or of two messages from the exclusive or of two registers gives the exclusive or of the results. |
| Crc16.ChecksumAffine | chekr_app/src/utils.c:20-39 | For three messages of equal length the checksums' exclusive or is the checksum of the messages' exclusive or. |
| Crc16.TrailerClears | chekr_app/src/utils.c:25-34 | Feeding any register its own value, low byte first, leaves zero. |
| Crc16.Residue | chekr_app/src/utils.c:25-34 | After a message and two more bytes the register is zero if and only if these are the message's register, low byte first. |
| Crc16.ResidueOfStoredFrame | chekr_app/src/utils.c:36-38 | The trailer as stored after the byte swap clears the register if and only if its two bytes are equal. |
| Crc16.ReceiverCheck | chekr_app/src/ble/src/chekr.c:241-278 | A frame with a correct header is accepted exactly when the word read from the freed block is the message's checksum; that is the right decision if and only if the word is the trailer, or both are wrong. |
| Crc16.AcceptedIff | chekr_app/src/ble/src/chekr.c:241-278 | A request is accepted if and only if it has 3 to 128 bytes, starts with 0x01, its own length and 0xF1, and the word read is the checksum of all but its last two bytes, low byte first. |
| Crc16.StaleWordRefuses | chekr_app/src/ble/src/chekr.c:272 | If the word read does not change between two correct frames that differ inside two adjacent bytes, one of them is refused. |
| Crc16.MisreadWord | chekr_app/src/ble/src/chekr.c:241-278 | A concrete correct request refused, and the same request with a damaged trailer accepted. |
| FileQueue.NameInjective | c_modules/fqueue/src/fqueue.c:226 | Names printed with "%03d" differ for different indices, beyond 999 too, because strtol reads the index back. |
| FileQueue.FindFirstAndLast | c_modules/fqueue/src/fqueue.c:91-156 | For a listing in any order the loop returns the least index and one past the greatest of the non-empty files, and 0 and 0 without any. |
| FileQueue.ScanFinds | c_modules/fqueue/src/fqueue.c:113-147 | On any complete listing of the directory those two are the oldest item's index and the slot behind the newest item. |
| FileQueue.FileQueue.constructor | c_modules/fqueue/src/fqueue.c:178-209 | A reader starts at the oldest item, a writer behind the newest. |
| FileQueue.FileQueue.Put | c_modules/fqueue/src/fqueue.c:211-243 | The state after each outcome: refused mode or space changes nothing, a failed open or write has advanced the index, otherwise the bytes the file system wrote are the item at it, fewer than asked for included. |
| FileQueue.FileQueue.ReadNext | c_modules/fqueue/src/fqueue.c:245-303 | A non-blocking get or peek returns the file's bytes or nothing, and the whole item even when the buffer is smaller; only a get that found data removes the file and advances; what happens to the semaphore. |
| FileQueue.ReadsMean | c_modules/fqueue/src/fqueue.c:245-303 | What a read that does not wait finds at its slot, the errors without a file, and that only finding data leaves the semaphore given. |
| FileQueue.SemaphoreFollows | c_modules/fqueue/src/fqueue.c:211-303 | Every write that comes to an end gives the semaphore, a read without data takes it, and nothing else but a power failure changes it. |
| FileQueue.StepConserves | c_modules/fqueue/src/fqueue.c:211-303 | Every step keeps the invariant and conserves items: unread plus completed before equals delivered plus unread after. |
| FileQueue.RunConserves | c_modules/fqueue/src/fqueue.c:178-303 | Over any run with failing and short puts, reader restarts and power failures no stored item is lost, repeated or reordered. |
| FileQueue.Fifo | c_modules/fqueue/src/fqueue.c:178-303 | From the empty directory the items delivered, followed by those unread, are the items put, in order. |
| FileQueue.PutIsSteps | c_modules/fqueue/src/fqueue.c:226-240 | A successful put, creating and then writing the file, appends exactly its item. |
| FileQueue.GetIsHead | c_modules/fqueue/src/fqueue.c:246-303 | A read finds an item exactly when the reader's slot is live; it is then the oldest unread one, get removes just that, and a preceding peek shows the same. |
| FileQueue.CrashIsSafe | c_modules/fqueue/src/fqueue.c:189-203 | After a power failure at any point nothing written is gone, the writer's index exceeds every item's and its slot is free, and the reader is at the oldest item. |
| FileQueue.ReopenedReaderGets | c_modules/fqueue/src/fqueue.c:189-204 | After the reader is initialised again the next get delivers the oldest item whenever there is one. |
| FileQueue.ReopenedWriter | c_modules/fqueue/src/fqueue.c:189-201 | Initialising only the writer keeps the order exactly when something is unread or the reader is at index 0. |
| FileQueue.GapBlocks | c_modules/fqueue/src/fqueue.c:252-282 | A slot behind the writer without item lets through only the items in front of it, in any run until an end is initialised again. |
| FileQueue.StuckForever | c_modules/fqueue/src/fqueue.c:252-282 | A reader that has come to such a slot gets nothing more. |
| FileQueue.GapsStick | c_modules/fqueue/src/fqueue.c:226-240 | From any state, with items unread or not, a refused create, a failed write and a write of no bytes leave such a gap, and initialising the reader of a used, empty queue puts it at one. |
| FileQueue.DrainsIff | c_modules/fqueue/src/fqueue.c:245-303 | For every queue, failed puts included, a reader that keeps getting receives everything unread if and only if no item stands behind the first slot without one; it always receives just the items in front of that slot. |
| FileQueue.BlankOnlyInFlight | c_modules/fqueue/src/fqueue.c:283-302 | While all puts complete, a read reports success without data exactly when the put of that slot is between create and write. |
| FileQueue.GetsPop | c_modules/fqueue/src/fqueue.c:294-300 | Any number of gets up to the items ahead removes exactly their files and delivers them in order. |
| FileQueue.DrainDelivers | c_modules/json/src/d1_json.c:1500-1515 | A freshly initialised reader of such a queue delivers all items in order, one per get. |
| FileQueue.DrainAfterRun | c_modules/fqueue/src/fqueue.c:178-303 | After any run of completed puts, gets, peeks and restarts, initialising the reader and draining delivers exactly what was put and not delivered. |
| Text.StrToLPadded | c_modules/fqueue/src/fqueue.c:131 | strtol inverts zero-padded decimal printing for every number of a long. |
| Text.StrToLReads | commercial_collar/src/d1_time.c:33 | Behind white space and a sign strtol reads any printed number, leading zeros included, brought into the range of a long, and stops where its digits do. |
| Text.StrToLNothing | commercial_collar/src/d1_time.c:34 | Without a digit behind them it reads nothing. |
| Text.DecimalDigits | c_modules/fqueue/src/fqueue.c:226 | The k-th digit from the right that is printed is the one of the k-th power of ten. |
| Text.DecimalIsShortest | c_modules/fqueue/src/fqueue.c:226 | As many digits are printed as the number has, without leading zeros. |
| ModemHandles.HandleTable.GetNextHandleId | c_modules/modem/src/modem_spi.c:1018-1027 | Returns and marks the first unused slot from 1 to 31, or -125 and changes nothing. |
| ModemHandles.HandleTable.SendCommand | c_modules/modem/src/modem_spi.c:1070-1133 | The handle returned is the slot it has marked; a failing allocation leaves the slot marked; without a free slot the result is plus 125. |
| ModemHandles.HandleTable.ReceiveMessage | c_modules/modem/src/modem_spi.c:640-743 | For every message, power state, answer of the dispatcher, lock and allocation the table becomes `Received` of the old one; `ReplyKeptIff` says what that is. |
| ModemHandles.ReplyKeptIff | c_modules/modem/src/modem_spi.c:640-743 | The reply is stored in its slot, and nowhere else, if and only if the modem is on, lock and memory are to be had, the handle is that of a used slot below 32, the message has at most 3072 bytes and does not start with 0xCC 0xCC or 0xFE 0xFE, and the dispatcher has not consumed one of the peeked kinds; otherwise the table is unchanged. |
| ModemHandles.HandlerIsDeliver | c_modules/modem/src/modem_spi.c:640-743 | For a reply in flight the handler is the system's `Deliver` exactly under those conditions, and otherwise its `Lose`. |
| ModemHandles.HandleTable.ReceiveResponse | c_modules/modem/src/modem_spi.c:1136-1160 | Returns the stored bytes when there are some and they fit, else -1 or -ENOMEM. |
| ModemHandles.HandleTable.FreeReplyData | c_modules/modem/src/modem_spi.c:1034-1046 | Empties exactly the slot given; a handle from 32 on is refused. |
| ModemHandles.HandleTable.StopWaiting | c_modules/modem/src/modem_spi.c:576-588 | Frees a used slot but leaves the pointer to a stored reply dangling. |
| ModemHandles.InvMeans | c_modules/modem/src/modem_spi.c:1018-1047 | The invariant says: outstanding handles are distinct and in 1..31, a slot nobody holds is unused and empty, every receive call returned the answer to its own request. |
| ModemHandles.StepKeeps | c_modules/modem/src/modem_spi.c:640-743 | Every step of requesters, wire, modem and handler keeps it, when slots are marked only while nobody holds them and no wait is given up while its request is under way. |
| ModemHandles.ClaimKeeps | c_modules/modem/src/modem_spi.c:1018-1027 | A claim under a lock keeps it, and fails exactly when slots 1 to 31 are all used. |
| ModemHandles.RepliesMatch | c_modules/modem/src/modem_spi.c:1136-1191 | Over every such interleaving each receive call returns the reply to its own request, handles stay distinct and in 1..31, and free slots hold no data. |
| ModemHandles.LockedRepliesMatch | c_modules/modem/src/modem_spi.c:1018-1047 | With claim and release undisturbed no side condition on claims remains, and an unused slot never holds data. |
| ModemHandles.MarkKeeps | c_modules/modem/src/modem_spi.c:1020-1024 | Marking the slot found is safe if and only if nobody holds it by then. |
| ModemHandles.GuardOfMark | c_modules/modem/src/modem_spi.c:1021 | The code's own test, an unused slot, suffices if and only if no release of that slot is half done. |
| ModemHandles.ClaimRace | c_modules/modem/src/modem_spi.c:1018-1027 | From any state of the protocol two requesters that saw the same slot unused share it, and the second receives the answer to the first one's request. |
| ModemHandles.ClaimRaceHappens | c_modules/modem/src/modem_spi.c:1018-1027 | A run from power-up in which that happens. |
| ModemHandles.GiveUpKeeps | c_modules/modem/src/modem_spi.c:1164-1190 | A wait may be given up if and only if nothing of its request is under way. |
| ModemHandles.LateReply | c_modules/modem/src/modem_spi.c:722-736 | Otherwise the released handle is claimed again and the late answer goes to the new holder. |
| ModemHandles.LateReplyHappens | c_modules/modem/src/modem_spi.c:722-736 | A run from power-up in which that happens. |
| ModemHandles.StopWaitingKeeps | c_modules/modem/src/modem_spi.c:576-588 | Stopping to wait leaves the table in order if and only if the request is over and no reply was stored. |
| ModemHandles.UndisturbedIsLocked | c_modules/modem/src/modem_spi.c:1018-1046 | When nothing comes between, testing slot after slot and marking the first unused one is the claim under a lock, whatever slot that is or if there is none, and clearing flag and pointer is the locked release. |
| ConfigReplicas.DataModule.NewConfigHandle | asset_tracker_v2/src/modules/data_module.c:905-1042 | The configuration becomes the merge of old and new, and is distributed if and only if some field changed. |
| ConfigReplicas.MergeIs | asset_tracker_v2/src/modules/data_module.c:957-1004 | A new configuration is taken over unchanged exactly when its times are positive or unchanged; a valid one stays valid; the same one again changes nothing. |
| ConfigReplicas.Application.Handle | asset_tracker_v2/src/main.c:563-596 | One turn of the main loop over all states: configuration copy, timers, sub-state and shutdown. |
| ConfigReplicas.Application.OnSubStatePassive | asset_tracker_v2/src/main.c:460-479 | In passive mode a new configuration is adopted with the timers and sub-state it asks for, and movement restarts the passive timers. |
| ConfigReplicas.Application.OnSubStateActive | asset_tracker_v2/src/main.c:482-496 | In active mode likewise; movement changes nothing. |
| ConfigReplicas.MessageQueue.Enqueue | asset_tracker_v2/src/modules/modules_common.c:66-106 | A full queue is purged together with the new message. |
| ConfigReplicas.TenMessagesFit | asset_tracker_v2/src/modules/modules_common.c:66-106 | Ten messages fit, and no queue grows longer. |
| ConfigReplicas.EventsHandled | asset_tracker_v2/src/main.c:422-596 | State, configuration and timers after every event in every state. |
| ConfigReplicas.OnlyEventsChangeCopies | asset_tracker_v2/src/modules/location_module.c:657-660 | A copy changes only when a configuration event is taken, and to what that event carries. |
| ConfigReplicas.ConfigurationArrives | asset_tracker_v2/src/main.c:422-496 | Three steps from power-up start the application with the data module's configuration; three more bring any other configuration in range to all three modules. |
| ConfigReplicas.StepKeeps | asset_tracker_v2/src/modules/data_module.c:1186-1222 | Every step without overflow keeps the replicas' invariant. |
| ConfigReplicas.OverflowKeeps | asset_tracker_v2/src/modules/modules_common.c:70-84 | After an overflow it holds if and only if the events left bring the application up to date or it is up to date already. |
| ConfigReplicas.LostInitStays | asset_tracker_v2/src/main.c:422-438 | Over any run, overflows included, an application whose CONFIG_INIT is lost never runs until the start event is handled again. |
| ConfigReplicas.ReplicasAgree | asset_tracker_v2/src/modules/location_module.c:657-660 | In every reachable state both copies equal the data module's configuration unless a config event for them is under way, whose newest one carries it; mode and timers, with their durations, are those the copy asks for. |
| ConfigReplicas.QuietReplicasAgree | asset_tracker_v2/src/modules/data_module.c:505-515 | Once everything posted is handled all three configurations are equal, and the application's timers run for their times. |
| ShutdownProtocol.ModulesInfo.ShutdownRegister | asset_tracker_v2/src/modules/modules_common.c:108-146 | Undisturbed: removes the first supporting module with that id and answers true exactly when the id is not 0, not that of a module without support, and no supporting module is left. |
| ShutdownProtocol.ModulesInfo.Start | asset_tracker_v2/src/modules/modules_common.c:148-179 | Appends the module and keeps both counters equal to what the list holds. |
| ShutdownProtocol.UtilModule.SendRebootRequest | asset_tracker_v2/src/modules/util_module.c:182-205 | Emits the request, schedules the long timeout and changes state the first time only. |
| ShutdownProtocol.UtilModule.HandleMessage | asset_tracker_v2/src/modules/util_module.c:241-330 | Which messages request a reboot in which state, and that the start event resets the state. |
| ShutdownProtocol.FirstRequestOnly | asset_tracker_v2/src/modules/util_module.c:182-330 | The first error, request or finished update while waiting for one, or a failing start, requests the reboot with the 30-second timer; nothing does so again, and only a start changes the state back. |
| ShutdownProtocol.UtilModule.HandleShutdownReady | asset_tracker_v2/src/modules/util_module.c:211-298 | While a reboot is pending an acknowledgement registers exactly its module and schedules the early reboot if and only if it was the last supporting one; in the other state it changes nothing. |
| ShutdownProtocol.StepKeeps | asset_tracker_v2/src/modules/modules_common.c:108-179 | Every step of starters, registration and events in any order keeps both counters equal to the sets they count. |
| ShutdownProtocol.SupportedCount | asset_tracker_v2/src/modules/modules_common.c:159-170 | The counter is the supporting modules listed, plus starters between counting and listing themselves, plus the one being removed. |
| ShutdownProtocol.AllGone | asset_tracker_v2/src/modules/modules_common.c:138-141 | The check answers true if and only if no supporting module is listed or in flight. |
| ShutdownProtocol.ShutdownIsSafe | asset_tracker_v2/src/modules/util_module.c:182-223 | In every interleaving in which a request is one step, at most one request is emitted, and the 5-second reboot is scheduled only after a check at which no supporting module was listed or in flight. |
| ShutdownProtocol.UndisturbedRegistration | asset_tracker_v2/src/modules/modules_common.c:117-141 | While a reboot is pending, the five steps of a registration that nothing comes between remove exactly the first supporting module with the id from list and counters, and schedule the early reboot if and only if the counter is then zero. |
| ShutdownProtocol.RegistrationRefines | asset_tracker_v2/src/modules/modules_common.c:108-146 | From every reachable kind of state without a module in flight, for every id, the undisturbed steps leave the list that `ShutdownRegister` leaves and schedule the early reboot exactly when it answers true. |
| ShutdownProtocol.StarterNotSeen | asset_tracker_v2/src/modules/modules_common.c:160-165 | A starter before its increment is not seen: the answer can be true while it is starting. |
| ShutdownProtocol.StarterNotSeenHappens | asset_tracker_v2/src/modules/modules_common.c:160-165 | A run from power-up in which that happens. |
| ShutdownProtocol.StartLosesAcks | asset_tracker_v2/src/modules/util_module.c:301-313 | Once the start event follows the request, no run reaches the pending state again: the timer stays as it is. |
| ShutdownProtocol.AcksCountIff | asset_tracker_v2/src/modules/util_module.c:241-313 | After any run with a reboot requested, acknowledgements count if and only if no start event was handled with the request or after it. |
| ShutdownProtocol.OneRequestIffOrderly | asset_tracker_v2/src/modules/util_module.c:182-205 | Any number of callers in any order emit at most one request if and only if none passes the test of the flag while another is between its test and setting it. |
| ShutdownProtocol.TwoRequests | asset_tracker_v2/src/modules/util_module.c:182-205 | A run of two callers that emits two requests. |
| ScanPipeline.ParseSsids | mfg_shell/src/main.c:122-189 | The character loop fills the packet with the rewritten table, never longer than the table; anything but a scan is ignored. |
| ScanPipeline.IsScanIff | mfg_shell/src/main.c:136-147 | A text is taken for a scan if and only if the tag stands behind its first two characters. |
| ScanPipeline.LineRewritten | mfg_shell/src/main.c:148-184 | Of every line, with any number of fields, the host keeps the first and the third field with a comma for the first tab, and the newline. |
| ScanPipeline.RewriteTable | mfg_shell/src/main.c:148-184 | The state machine turns a table of rows into exactly one "address,RSSI" line per row, whatever follows. |
| ScanPipeline.ParseLines | asset_tracker_v2/src/modules/spis_interface.c:327-350 | For every text the line loop ends and has collected `AccessPoints`, which `NumbersRecovered` and `ScanHexReads` read without it. |
| ScanPipeline.ScanLineText | asset_tracker_v2/src/modules/spis_interface.c:327-334 | sscanf recovers the six bytes and the RSSI from a row's line. |
| ScanPipeline.PipelineRecovers | asset_tracker_v2/src/modules/spis_interface.c:318-350 | For every table of valid rows the modem reads exactly the rows' addresses and RSSIs, in order, and the text between is no longer than the table. |
| ScanPipeline.NumbersRecovered | asset_tracker_v2/src/modules/spis_interface.c:318-350 | For every list of access points, its addresses numbers printed with the digits 0-9, a-f or A-F, the modem reads out of the host's text exactly these numbers and RSSIs, in order. |
| ScanPipeline.ScanHexReads | asset_tracker_v2/src/modules/spis_interface.c:327 | Behind white space, a sign and a prefix "%hhx" reads a number of any length as an unsigned long, saturated or negated, of which it keeps a byte. |
| ScanPipeline.ScanHexFails | asset_tracker_v2/src/modules/spis_interface.c:327 | Without a digit behind them the conversion fails. |
| ScanPipeline.UsualTails | mfg_shell/src/main.c:148-184 | Nothing, or the scanner's closing OK, ends the reading. |
| Json.PrintedLength | c_modules/json/src/d1_json.c:176-183 | The width charged for a tree is the length of its text as cJSON prints it. |
| Budget.BelowMeans | c_modules/json/src/d1_json.c:178 | The comparison of the 16-bit budget with a length is the usual one for a budget that is not negative, and never true of a negative one. |
| Budget.FitIsLongest | c_modules/json/src/d1_json.c:169-185 | Emitting entry after entry until one does not fit takes the longest prefix whose widths sum to at most the budget. |
| Messages.AddSsidsToJson | c_modules/json/src/d1_json.c:156-187 | Emits in order exactly that prefix of the queue, leaves the rest, charges header and entries, and asks for more if something is left; what the entries say is in `MessageSays`. |
| Messages.JsonWheresMyDog | c_modules/json/src/d1_json.c:1094-1175 | Machine ids of a wrong length and a missing request id are refused without touching the queues; otherwise message, result and queues are those of `Build` over the fields of `BaseOf`, and the GPS counter stays right. |
| Messages.MessageSays | c_modules/json/src/d1_json.c:1094-1168 | Looked up by name in every message: the fixed fields, the arguments given and none that are not, the scan time, and for every access point taken its address, signal strength and channel; the entries of the fixes taken. |
| Messages.BaseWidthIs | c_modules/json/src/d1_json.c:1116-1148 | The fields before the arrays print in exactly `BaseWidth` bytes, a sum over the arguments. |
| Messages.MuchIsFree | c_modules/json/src/d1_json.c:1144-1148 | With arguments in the range of their C types, a network name that prints in full escapes and a time of at most 15 digits included, a message has more than 1500 bytes free for its arrays. |
| Messages.Accounting | c_modules/json/src/d1_json.c:1137-1168 | Printed length plus budget left is always the budget plus the uncharged commas less the slack of the scan time, and what is left is not negative once an array is in. |
| MessageLimit.WithinLimit | c_modules/json/src/d1_json.c:1094-1168 | The message stays within the limit if and only if the commas of the longest prefixes that fit do not exceed padding, slack of the scan time and the unused rest of the budget: a condition on the arguments and what is queued. |
| MessageLimit.FewEntriesFit | c_modules/json/src/d1_json.c:1094-1168 | Queues with at most as many commas as padding and slack, thirteen SSIDs for a scan time of ten digits, never exceed it. |
| MessageLimit.OverLimit | c_modules/json/src/d1_json.c:183 | A concrete request with 25 access points makes a message of 1992 bytes. |
| Messages.AskingForMoreTakes | commercial_collar/src/comm_mgr/src/commMgr.c:660-681 | A message that asks for more has taken something, one that does not has drained the SSIDs, if it had 128 bytes free and entries print in at most 117. |
| Messages.SentDrains | commercial_collar/src/comm_mgr/src/commMgr.c:660-681 | Repeating while asked for more sends every SSID exactly once, in order. |
| Messages.CloudHearsQueue | commercial_collar/src/comm_mgr/src/commMgr.c:660-681 | All messages together tell every access point of the queue once, in order, under its own address, signal strength and channel. |
| Messages.CloudHearsFixes | c_modules/modem/src/gps.c:76-112 | They tell the oldest fixes of the buffer, in order, and exactly the others stay in it. |
| Messages.SentFixesAreOldest | c_modules/modem/src/gps.c:76-112 | The fixes sent over all those messages, followed by those left, are the buffer, in order. |
| Messages.SendWheresMyDog | commercial_collar/src/comm_mgr/src/commMgr.c:660-681 | For all arguments in the range of their C types the loop ends, sends those messages, empties the SSID queue and leaves the last message's fixes; refused arguments send nothing. |
| Messages.CrampedLeavesSsids | c_modules/json/src/d1_json.c:162-164 | A message takes no SSIDs and does not ask for more if and only if it has less than 128 bytes free, which `MuchIsFree` rules out here. |
| GpsBuffer.GpsData.Add | c_modules/modem/src/gps.c:32-56 | Whatever the counter, if the eviction loop can end it removes exactly as many of the oldest fixes as bring the counter below the limit, and the new fix is appended. |
| GpsBuffer.ExcessIsNeeded | c_modules/modem/src/gps.c:35-44 | As many fixes are evicted as bring the counter below 32, and no more. |
| GpsBuffer.GpsData.ReceiveGpsData | c_modules/modem/src/modem_spi.c:320-350 | Only fixes with lock and non-zero coordinates are stored; the results of the other cases. |
| GpsBuffer.GpsData.GetJsonList | c_modules/modem/src/gps.c:59-113 | What is emitted, skipped, left and counted, for any buffer and budget. |
| GpsBuffer.ScanIsPrefix | c_modules/modem/src/gps.c:76-111 | Without zero fixes exactly the longest prefix that fits is emitted and the rest is untouched. |
| GpsBuffer.CountKept | c_modules/modem/src/gps.c:78-84 | The counter is the queue's length afterwards if and only if all fixes without zero coordinate fit, or none with one is among those that fit and the next one. |
| GpsBuffer.EvictionEndsIff | c_modules/modem/src/gps.c:35-44 | The eviction loop ends if and only if the queue holds enough fixes to bring the counter below the limit. |
| GpsBuffer.BufferHoldsNewest | c_modules/modem/src/gps.c:32-144 | After any arrivals and reports the buffer is exactly the newest 32 of the unreported fixes that arrived with lock and both coordinates, or all of fewer, in order, and the counter is its length. |
| MlList.MlGetJsonList | c_modules/json/src/d1_json.c:1496-1602 | For any directory, budget and content of the uninitialised buffer: what is listed, charged and returned, with the 16-bit and unsigned arithmetic of the source, which files are removed, and the semaphore; the loop ends. What the list says is in `CleanListSays`. |
| MlList.EachRecordOnceIff | c_modules/json/src/d1_json.c:1546-1594 | From every state of the queue: the records listed followed by those still in the queue are those that were unread, if and only if the listing does not come to an empty file with room for the last record once more. |
| MlList.RepeatsMeans | c_modules/json/src/d1_json.c:1568-1592 | With a header that fits, that room is there exactly when the records ahead and the last one again are a prefix that fits beside the closing field. |
| MlList.RepeatedRecord | c_modules/json/src/d1_json.c:1577-1592 | After one put and a put whose write fails the one record is listed at least twice. |
| MlList.CleanQueueShowsUnread | c_modules/json/src/d1_json.c:1500-1592 | In a queue in which every put has completed, or none is in flight where the reading stops, the records shown are exactly the unread ones. |
| MlList.CleanListSays | c_modules/json/src/d1_json.c:1496-1602 | In such a queue, when the header fits, looked up by name in the one field added: the start of the oldest unread record in seconds, the version, the entries of the first unread records, as many as fit, and the end of the last of these; nothing without unread records or below 200 bytes. |
| MlList.TakePartitions | c_modules/json/src/d1_json.c:1546-1594 | The records listed followed by those left are the records the reader shows. |
| MlList.BudgetKept | c_modules/json/src/d1_json.c:1535-1585 | The charge stays within the budget if and only if the header fits into it; then the records are the longest prefix that fits beside the closing field. |
| MlList.ListGrowsWithinBudget | c_modules/json/src/d1_json.c:1535-1597 | The printed list exceeds budget and padding if and only if its name, its commas and what the closing field prints beyond its reserve exceed the padding and the unused rest. |
| MlList.NineRecordsFit | c_modules/json/src/d1_json.c:1535-1597 | Up to nine records shown never do, with end times of at most ten digits. |
| MlList.TenRecordsOverrun | c_modules/json/src/d1_json.c:1535-1597 | Ten records of equal width that just fit always do, by one byte. |
| ShadowDocument.JsonShadowReport | c_modules/json/src/d1_json.c:426-481 | The report built step by step is the tree `Report`, and there is none for a machine id of the wrong length. |
| ShadowDocument.ReportSays | c_modules/json/src/d1_json.c:426-481 | Looked up by name in every report: identity, every setting and version; the extra fields in order; behind them the zones with index, name and flag. |
| ShadowDocument.ShadowDoc.ParseShadowReport | c_modules/json/src/d1_json.c:496-733 | For any JSON tree and any old document the result and the document left are those of `ParseReport`; `DeltasOnly`, `NoReport`, `ZonesReported` and `ZoneEntry` say what these are. |
| ShadowDocument.DeltasOnly | c_modules/json/src/d1_json.c:496-733 | For every tree with an object under "M": a setting without a field of its name, up to case, keeps its old value, for each of the eight clamped numbers, both periods, the motion flag and the zones; with one it gets the first such field's number, saturated and brought into its range; the result is 0 if and only if one of the twelve keys is there. |
| ShadowDocument.NoReport | c_modules/json/src/d1_json.c:530-539 | Text that does not parse, and a tree without an object under "M", leave the old document, with the versions forgotten. |
| ShadowDocument.DeltaChangesOnly | c_modules/json/src/d1_json.c:496-733 | Parsing a report cut down to any of its fixed fields changes exactly the settings of those kept, and returns 0 if and only if one that counts is left. |
| ShadowDocument.ZonesReported | c_modules/json/src/d1_json.c:681-728 | With a field for the zones they are the old ones with the entries of the first such field applied in turn. |
| ShadowDocument.ZoneEntry | c_modules/json/src/d1_json.c:682-725 | One entry changes only the zone of its index, its name only to a string of at most 32 bytes, its flag only together with the name. |
| ShadowDocument.RoundTrip | c_modules/json/src/d1_json.c:426-733 | Parsing a report gives the document back, numbers clamped, for every old document and all extra keys that do not hide the zones. |
| ShadowDocument.NumbersComeBack | c_modules/json/src/d1_json.c:545-646 | The numbers come back unchanged if and only if they were in range. |
| ShadowDocument.ZonesReadBack | c_modules/json/src/d1_json.c:678-728 | For any old document position i holds the last zone reported under index i, or what was there. |
| ShadowDocument.ParseKeepsOrder | c_modules/json/src/d1_json.c:678-728 | Parsing any text keeps every zone at the position of its index. |
| ShadowDocument.ZonesComeBack | c_modules/json/src/d1_json.c:678-728 | Over such an old document the zones come back if and only if zone i was stored under index i. |
| ShadowDocument.HiddenZones | c_modules/json/src/d1_json.c:459-467 | Any extra key equal to "ZONES" up to case, wherever it stands, hides the zones: the old ones stay. |
| ShadowDocument.ZonesComeBackIffVisible | c_modules/json/src/d1_json.c:459-467 | Ordered zones come back over every old document if and only if no extra key does so. |
| SampleRequests.DataGet | asset_tracker_v2/src/main.c:374-419 | The list asked for and the timeout, between 5 and 110 seconds when a location is asked for. |
| SampleRequests.AskedForIsDistinct | asset_tracker_v2/src/main.c:387-395 | That list names no type twice, never movement, static data only until sampled, and has a length the data module accepts. |
| SampleRequests.DataModule.RequestedDataStatusSet | asset_tracker_v2/src/modules/data_module.c:861-886 | What a report does: counted if asked for, announced when complete; a location outside a request is announced at once. |
| SampleRequests.ReportsMean | asset_tracker_v2/src/modules/data_module.c:861-886 | Outside a request only a location announces data, and nothing else happens; within one a report counts if asked for, and the last one counted announces the data and clears the request. |
| SampleRequests.DataModule.OnDataGet | asset_tracker_v2/src/modules/data_module.c:1232-1246 | A new list replaces the old one and starts the timer; a refused one only starts the timer. |
| SampleRequests.ListsMean | asset_tracker_v2/src/modules/data_module.c:888-903 | A list of one to six types replaces the old one, any other leaves it; the timer starts either way. |
| SampleRequests.StepKeeps | asset_tracker_v2/src/modules/data_module.c:847-903 | A request is pending exactly while types are asked for, with the counter below their number and equal to the reports: kept by a step if and only if it is no refused list while idle. |
| SampleRequests.Pigeonhole | asset_tracker_v2/src/modules/data_module.c:876-885 | As many reports as types asked for cover all of them if and only if none came twice. |
| SampleRequests.ReadyIsComplete | asset_tracker_v2/src/modules/data_module.c:883-885 | Data announced before the timeout is complete if and only if no type reported twice. |
| SampleRequests.ReadyWhenComplete | asset_tracker_v2/src/modules/data_module.c:876-885 | With each type reporting at most once, the report that completes the request, and no earlier one, announces the data. |
| SampleRequests.ReadyMeansAllReported | asset_tracker_v2/src/modules/data_module.c:847-903 | Over every run of the application's requests, reports and timeouts: data announced before the timeout means that every type of the latest request has reported since, if and only if none reported twice. |
| SampleRequests.CounterRefinesSet | asset_tracker_v2/src/modules/data_module.c:847-903 | The invariant holds in every reachable state. |
| SampleRequests.RefusedListSends | asset_tracker_v2/src/modules/data_module.c:888-894 | After a refused list while idle any report announces data nobody asked for. |
| CloudBackoff.DelaysGrow | asset_tracker_v2/src/modules/cloud_module.c:88-97 | In every reachable state each delay since the last reset is longer than the one before, and twice as long except after the fifth. |
| CloudBackoff.CloudModule.ConnectCloud | asset_tracker_v2/src/modules/cloud_module.c:509-541 | The look-up is inside the table although it precedes the check; an attempt is counted and scheduled, or the error raised. |
| CloudBackoff.CloudModule.Handle | asset_tracker_v2/src/modules/cloud_module.c:661-718 | What every message, callback and timer does in every state. |
| CloudBackoff.EventsAndTimer | asset_tracker_v2/src/modules/cloud_module.c:404-724 | In which states which events try to connect, end the retries or do neither, and the counter and the timer after each: the table's delay, a second, five seconds, stopped or as it was. |
| CloudBackoff.EventsAndStates | asset_tracker_v2/src/modules/cloud_module.c:661-724 | Both states after every event. |
| CloudBackoff.TimerFollowsAttempts | asset_tracker_v2/src/modules/cloud_module.c:509-541 | Over every run from power-up a running timer runs for the delay of the newest attempt since the last reset, for a second or for five. |
| CloudBackoff.StepKeeps | asset_tracker_v2/src/modules/cloud_module.c:974-986 | Every event keeps the counter equal to the attempts since the last reset. |
| CloudBackoff.RetriesAreAttempts | asset_tracker_v2/src/modules/cloud_module.c:509-551 | In every reachable state the counter is that number, at most one above the limit; the delays since the reset are the table's in order; the error comes only after that many attempts; cloud connected implies LTE connected or shutdown. |
| CloudBackoff.RacingRetries | asset_tracker_v2/src/modules/cloud_module.c:404-541 | With resets from the library's thread anywhere, in the middle of an attempt too, look-ups stay inside the table and the counter to come is at least the attempts since the last reset; equal to them if and only if that reset did not come in the middle of one. |
| CloudBackoff.ErrorDeservedIff | asset_tracker_v2/src/modules/cloud_module.c:509-520 | Over the same runs the error is raised after one attempt more than the limit, with no reset since, if and only if the last reset did not come in the middle of an attempt; otherwise after fewer. |
| CloudBackoff.EarlyError | asset_tracker_v2/src/modules/cloud_module.c:404-541 | For every limit, a run from power-up after which the next timeout raises the error with no attempt since the last reset. |
| CloudBackoff.LostReset | asset_tracker_v2/src/modules/cloud_module.c:404-541 | A reset between load and store leaves the counter going on from where it was; one just before the load leaves it at one. |
| ClockParser.TmBuffer.GetYMD | commercial_collar/src/d1_time.c:25-70 | Accepts exactly year-month-day with month 1..12 and day 1..31 and nothing behind. |
| ClockParser.TmBuffer.GetHMS | commercial_collar/src/d1_time.c:72-127 | Accepts hour, minute, second in range; a colon in place of a number leaves that field as it was. |
| ClockParser.DateAcceptedIff | commercial_collar/src/d1_time.c:25-70 | Any text is accepted as a date if and only if it is three numbers with dashes between them, the month in 1..12 and the day in 1..31, and yields these numbers. |
| ClockParser.TimeAcceptedIff | commercial_collar/src/d1_time.c:72-127 | Any text is accepted as a time if and only if it is an hour, a minute, each with a colon or the colon alone, and a second, in range, and sets just the fields given. |
| ClockParser.RefusedTimeLeaves | commercial_collar/src/d1_time.c:72-127 | A refused time leaves the number read last in its field, and the fields behind it and the date untouched. |
| ClockParser.RewriteSlashes | commercial_collar/src/d1_time.c:231-235 | The loop turns every slash into a dash and nothing else. |
| ClockParser.SetModemTime | commercial_collar/src/d1_time.c:196-250 | The string is cut at the comma and the first plus, or dash without one, and parsed by both parsers. |
| ClockParser.ClockIsSet | commercial_collar/src/d1_time.c:196-250 | Any string of at least 16 characters with comma and sign sets the clock if both parsers accept: slashes count as dashes, the year is 2000 and later, at most 15 characters of the time are read. |
| ClockParser.ClockIsNotSet | commercial_collar/src/d1_time.c:201-215 | Without comma, or without any sign, it is refused. |
| ClockParser.ParserInvertsFormat | commercial_collar/src/d1_time.c:196-250 | Every YY/MM/DD,hh:mm:ss with zone suffix is accepted if and only if its fields are in range, and yields exactly those fields. |
| FirmwareUpload.ModemUploadFw | c_modules/modem/src/modem.c:880-997 | The loop ends for every file and fate of the chunks and sends what `UploadFrom` says. |
| FirmwareUpload.SentUpToFailure | c_modules/modem/src/modem.c:917-987 | Exactly the chunks up to the first failure are sent; the result is 0 if all are accepted or that failure is a read error, and only then. |
| FirmwareUpload.CompleteUpload | c_modules/modem/src/modem.c:905-987 | Without failure: chunks 0, 1, ... to the announced total, all but the last full, the last shorter, payloads together the file. |
| FirmwareUpload.NumbersArePositions | c_modules/modem/src/modem.c:929-930 | The 16-bit numbers are the positions if and only if the file is below 64 MiB. |
| FirmwareUpload.SuccessMeansComplete | c_modules/modem/src/modem.c:981-984 | A successful upload has sent the whole file if and only if no read failed. |

## Left out

- Hardware and drivers: SPI transfers, GPIO, power control, sensors, watchdog, flash and reboot calls; the wire and the file system appear as steps and maps.
- cJSON's printing and parsing: JSON is an ordered tree with a print length; a printed report is taken to parse as the same tree, and strings are held as they print, without escaping and unescaping.
- Kernel objects: a k_fifo is a sequence, mutexes and semaphores are atomic steps, message queues lose everything on overflow as module_enqueue_msg does.
- The file queue's purge, blocking waits and rescan signal; indices stay below 2^31 - 1, where the source's int would wrap; directory and file-system errors other than those of put.
- FileQueue.FileQueue.constructor: creating a missing directory, errors of reading it, and the purge asked for by do_reinitialize are not modelled.
- FileQueue.FileQueue.ReadNext: what an item larger than the buffer overwrites is not modelled; after a wake-up without a file the failing read is taken to report -EBADF.
- ModemHandles.HandleTable.SendCommand: building the message and queueing it to the wire are the steps of the system, not of this method.
- ModemHandles.HandleTable.ReceiveResponse: one look at the slot; its repetition until the time is up is the requester's choice between receiving and giving up in the step system.
- Handles from 32 on in the receive and free functions, and use of a freed reply, beyond saying where they arise.
- ClockParser.SetModemTime: the branch for the Wi-Fi chip's format, strings whose comma or sign stands where the source would write outside its buffers, and the conversion to seconds are not part of this model.
- ConfigReplicas: accelerometer values are real numbers, so NaN, which always counts as a change, is not modelled; the cloud module's copy, which decoding overwrites before the range checks, is no replica.
- ConfigReplicas.DataModule.NewConfigHandle: saving to flash and acknowledging the configuration to the cloud are not modelled.
- ConfigReplicas.Application.Handle: the sample requests (see SampleRequests) and the acknowledgement of a shutdown are left out.
- ConfigReplicas.Application.OnSubStatePassive: whether movement restarts the timers, which depends on the activity, a request under way and the time left, is a flag of the event.
- ShutdownProtocol: that a shutdown completes is not claimed; modules that never acknowledge are left to the long timeout. A module record is started at most once, and ids are whatever the cycle counter gives.
- SampleRequests: the timer's handler and a report are atomic steps except in ExpiryInBetween, which shows what their overlap does.
- CloudBackoff.CloudModule.Handle: timeout events may arrive in any state, so every order the timers allow is covered and more.
- json_telemetry's other fields and log list; its SSID and activity arrays are those modelled here.
- Messages.JsonWheresMyDog: strings are held as they print, escapes included, and allocation failures are not modelled; numbers of 16 and more digits, which cJSON prints with an exponent, are modelled with all digits; the budget's 16 bits never wrap for arguments in the range of their types.
- Messages.MuchIsFree: a time of more than 15 digits is excluded, because it prints with an exponent.
- MlList.MlGetJsonList: decoding is a total function of the item's bytes, so a failing decoding and the abort on a record with too few elements are left out; records print into their temporary buffer; no put comes between two reads of one list.
- Entries that print longer than their temporary buffers, and floating-point rounding: a fix or record carries the object it prints as.
- ScanPipeline.ParseLines: the source stores the access points in an array of fixed size without checking it; the model collects a sequence. The text ends with the message, although the packet carries no terminating NUL and the receive buffer of 1280 bytes may hold older bytes behind it.
- ScanPipeline.PipelineRecovers: a table that makes a text longer than the receive buffer is not excluded; the transfer that would cut it off is not modelled.
- ShadowDocument.ShadowDoc.ParseShadowReport: for the keys MV, WV and LV the source prints "0.0.0" into the parsed string, which goes wrong when that is no string or a shorter one; the model leaves the tree alone.
- ShadowDocument: version strings are never read back; numbers outside 32 bits convert as the target's hardware does, which C leaves undefined.
- FirmwareUpload.ModemUploadFw: errors of opening the file and seeking in it, and the CRC-32 of each chunk, are not part of this model.
- Cloud integrations, codecs, the QoS library, shell commands, LEDs, logging, login and test applications.
