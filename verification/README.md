# Verification models for RSCoreFoundation

Dafny models, with proofs, of the concurrent core of the embedded libusb (`RSCoreUSB`), of its
configuration-descriptor parser, of the Bonjour and host-lookup state machines in `RSNetwork`, and of
the interned lists of `RSCoreFoundation`. `dafny verify dfyconfig.toml` checks everything.

## What is modelled

**Event handling** (`EventProtocol`, `EventInvariant`, `EventTheorems`, `EventProgress`). Any number of threads call
`libusb_handle_events*`, `libusb_open` and `libusb_close` on one context. Each thread has a program
counter; a step is one lock operation, one access to shared state, or one pipe operation. The events lock
is recursive because `do_close` nests it, and lowering `event_handler_active` happens while the outer
lock is still held, so "the flag is set" and "the lock is held" differ. The invariant therefore speaks of
threads that *owe a broadcast*. The proofs cover every run from the initial state: safety (no lost
wakeup, one handler, accounting of interrupts), progress (no deadlock), and that no call comes back without
having done what it is for. The control-pipe write may be refused or not, as a parameter; no wakeup is lost
exactly when it never is.

**In-flight transfers** (`Timeval`, `FlyingTransfers`, `Disconnect`, `TransferStatus`). The context's ring of
transfers is made of heap nodes with `prev` and `next`; a ghost sequence says what it means. All edits (submit,
completion, timeout scan, close, disconnect) are the link updates of the source, each proved
against that sequence. Deadlines are the *stored* ones, in microseconds, and the wait for `poll` is in
milliseconds. The disconnection of a device runs callbacks that may edit the list themselves. The end of a
transfer is followed from the timeout scan through the Darwin backend to the result of the blocking calls.

**Configuration descriptors** (`Descriptor`, `DescriptorLayout`, `DescriptorRejects`, `DescriptorSlots`,
`DescriptorAccounting`, `DescriptorLocality`, `DescriptorLoops`). The parsers of sections 9.6.3, 9.6.5 and
9.6.6 of the USB 2.0 specification, first as functions of the memory they read, then as the loops of the source,
which are proved to compute those functions. Memory is total: a peek past the end finds arbitrary bytes. A
separate layout function is the independent reference for the round trip, and a separate account of what is
refused the one for failures; both use the numbers of the specification and none of the parser's constants.

**RSNetwork** (`NetServiceResolve`, `NetServiceReports`, `NetServiceHang`, `NetServiceBrowser`,
`NetServiceBrowserSession`, `NetServiceBrowserRuns`, `HostLookup`, `HostLookupTheorems`, `HostAnswers`,
`HostReports`, `HostFailures`, `HostRegistry`). Three state machines whose events (replies, timers, cancels, failures to allocate) come in any order. Each has a step function,
theorems over every run, and a class whose methods update the fields in place and are proved to make exactly
those steps. In the host lookups an event ends wherever the source gives up the lock of a host or of the
table: a master's completion first ends its own lookup, then takes a list from the table, then answers one
client after the other, and a call of a source is under way before it has the host's lock. Whatever other
threads do may come in between.

**Devices** (`DeviceRegistry`). Reference counts of devices against the references that are out, through
discovery, `libusb_get_device_list` and `libusb_free_device_list`.

**Lists** (`InternedList`). The node pool, and lists over it.

## Where the code and its documentation differ

The models follow the code. These differences are stated as theorems:

- A refused control-pipe write in `libusb_open` or `libusb_close` loses a wakeup
  (`EventTheorems.SafeExactlyWhenWritesSucceed`).
- A timeout of 0 is documented as "no timeout" (`RSCoreUSB/libusb.h:897`), but the deadline of an earlier
  submission of the same transfer stays in force (`TransferStatus.ZeroTimeoutExpires`). A submission is
  without deadline if and only if its timeout is 0 and the transfer never had one
  (`FlyingTransfers.Context.Submit`).
- The FIXME in `parse_configuration` fears that extras before a later interface are dropped. There never
  are any (`DescriptorAccounting.NothingIsDropped`).
- Bytes past `wTotalLength` can decide whether a configuration is accepted, though never what is stored:
  exactly if the parser comes to an announced endpoint with no byte left, or with one byte left of value 1
  (`DescriptorLocality.OutsideBytesMatterExactlyIfStarved`, `DescriptorLocality.StoredBytesLieInside`).
- `_ServiceCreateQuery_NoLock` overwrites the error of the A query with the outcome of the AAAA query; a
  resolve can then hang. `NetServiceHang.HangsExactly` says when it does, and
  `NetServiceHang.DoomedExactly` when it no longer can be helped.
- A search that is refused because another is running leaves its error behind, and the running search
  then reports only that error (`NetServiceBrowserSession.AnnouncesUnlessRefused`).
- When the master host of a new lookup cannot be created, an empty list stays in `_HostLookups`
  (`HostLookupTheorems.StartKeepsInv`), and the next host with that name is never answered
  (`HostFailures.StrandedAfterFailure`).
- A master that has replied can no longer be cancelled, and `_MasterCallBack` takes whatever list then stands
  under its name. If the name has been given up and looked up anew in between, that is the list of another
  master, which runs on without one (`HostLookupTheorems.TakeListKeepsInv`,
  `HostFailures.TwoMastersAfterForeignTake`).
- `_MasterCallBack` answers its clients after it has dropped the table lock. A host that has cancelled and
  started again by then is answered although its new master is still running
  (`HostLookupTheorems.AnswerKeepsInv`), and for a host that has no lookup any more NULL is signalled
  (`HostAnswers.NullSignalledExactly`).
- `_AddressLookupPerform` does not look whether the host's lookup is still the one it was called for. Called
  late, it ends another one (`HostLookupTheorems.PerformKeepsInv`), or reports a resolution a second time
  (`HostAnswers.StepKeepsBalance`). `_HostCancel` looks only whether there is one
  (`HostLookupTheorems.PerformCancelKeepsInv`).

## Model

| member | source | states |
|---|---|---|
| EventTheorems.WakeupsAreOwed | RSCoreUSB/io.c:1984-2035 | In every reachable state, each thread asleep and unsignalled in `libusb_wait_for_event`, or committed to sleep, is matched by another thread that still has a broadcast to make. |
| EventTheorems.ActiveImpliesLockHeld | RSCoreUSB/io.c:1524-1589 | `event_handler_active` implies that the events lock is held at the depth its holder's program counter says; a close that has lowered the flag in its inner unlock still holds the outer lock. |
| EventTheorems.OneHandler | RSCoreUSB/io.c:1524-1544 | While one thread holds the events lock, no other holds it or handles events. |
| EventTheorems.CompletedTransfersAreNoticed | RSCoreUSB/io.c:1997-2027 | No thread polls for a transfer that has completed, and one that sleeps with its flag set is owed the broadcast of that completion. |
| EventTheorems.InterruptAccounting | RSCoreUSB/core.c:863-900 | `pollfd_modify` counts the threads inside a notification, the pipe holds one byte per write not read back, every read finds a byte, and both are zero at rest. |
| EventTheorems.FdRemovedUnderLock | RSCoreUSB/core.c:1094-1145 | A close removes its poll fd holding the events lock with no other thread in `handle_events`, unless its control-pipe write was refused. |
| EventTheorems.NoDeadlock | RSCoreUSB/io.c:1984-2035 | While any thread is inside the library, some thread can act, or the handler polls an empty control pipe and only the outside world is missing. |
| EventTheorems.NotificationInterruptsPoll | RSCoreUSB/core.c:863-900 | A thread that waits for the events lock to open or close a device depends on threads that can act, never on device events: its byte ends the handler's poll. |
| EventTheorems.RunnableUnlessBlocked | RSCoreUSB/io.c:1524-1741 | A thread that is neither idle nor asleep can act unless it wants a lock that another has. |
| EventTheorems.WaiterSeesNotification | RSCoreUSB/io.c:1638-1653 | A run in which a waiter goes to sleep because of `pollfd_modify` alone. |
| EventTheorems.WakeupLostAfterRefusedWrite | RSCoreUSB/core.c:877-883 | A run in which the write is refused and the waiter is left asleep with nobody to wake it. |
| EventTheorems.SafeExactlyWhenWritesSucceed | RSCoreUSB/core.c:863-900 | For two or more threads, no run loses a wakeup if and only if control-pipe writes are never refused. |
| EventProgress.EventsAreAttendedTo | RSCoreUSB/io.c:1984-2035 | In every run, a call that handles events comes back only after it has polled, or slept while another thread handled events, or its transfer is complete. |
| EventProgress.OnlyHandlersComplete | RSCoreUSB/io.c:1437-1486 | In every run a transfer is completed only by the thread that holds the events lock and handles events, and only a thread outside the library starts to wait for another one. |
| EventProgress.OpenTakesLock | RSCoreUSB/core.c:863-900 | In every run, opening a device comes back only after it has held the events lock, unless its control-pipe write was refused. |
| EventProgress.CloseDropsAndRemoves | RSCoreUSB/core.c:1020-1145 | In every run, closing a device comes back only after it has dropped its transfers under the events lock, with the flag raised, and removed its poll fd. |
| EventProgress.EventIsHandled | RSCoreUSB/io.c:1984-2035 | A run, for any number of threads, in which one thread polls while another sleeps, the handled event completes the transfer of the sleeper, and both come back. |
| EventInvariant.InvOnRun | RSCoreUSB/io.c:1524-1741 | The whole invariant holds in every state of every run. |
| EventInvariant.StepKeepsInv | RSCoreUSB/io.c:1984-2035 | Every step of every thread keeps the invariant, whatever is read and whichever write fails. |
| EventInvariant.WakeupKept | RSCoreUSB/core.c:877-883 | A step leaves a sleeper without anyone who owes it a broadcast if and only if by it a thread leaves after a refused control-pipe write, that thread was the only one to owe a broadcast, and some thread is committed to sleep. |
| EventInvariant.CountersKept | RSCoreUSB/core.c:863-900 | Every step keeps the counter and the pipe equal to the numbers of threads they stand for. |
| TimevalArithmetic.CalculateTimeout | RSCoreUSB/io.c:1129-1154 | The deadline is the clock plus the timeout to the microsecond; with timeout 0 the stored deadline is untouched. |
| TimevalArithmetic.RemainingIsMicros | RSCoreUSB/io.c:2248-2255 | The time that remains is max(0, deadline - now), and zero exactly when the deadline has been reached. |
| TimevalArithmetic.FullPollReachesDeadline | RSCoreUSB/io.c:1860-1865 | A poll that runs for its full wait ends no earlier than the deadline that supplied the wait, despite truncation and rounding, and the wait is less than a millisecond too long. |
| FlyingTransfers.Context.ListAdd | RSCoreUSB/libusbi.h:86-92 | The entry becomes the first element; the ring stays doubly linked. |
| FlyingTransfers.Context.ListAddTail | RSCoreUSB/libusbi.h:94-101 | The entry is inserted immediately before any node, an element or the head. |
| FlyingTransfers.Context.ListDel | RSCoreUSB/libusbi.h:103-106 | Exactly that element leaves the ring, and its own links stay as they were. |
| FlyingTransfers.Context.FindPlace | RSCoreUSB/io.c:1179-1193 | The scan finds the boundary between what expires no later and what expires later. |
| FlyingTransfers.Context.AddToFlyingList | RSCoreUSB/io.c:1159-1202 | The list stays sorted by deadline, infinite ones last, equal ones in submission order; the result is 1 exactly if the transfer has a deadline and every other one is infinite or later. |
| FlyingTransfers.InsertKeepsSorted | RSCoreUSB/io.c:1179-1193 | Insertion at that boundary keeps the order by deadline, then submission. |
| FlyingTransfers.RemoveKeepsSorted | RSCoreUSB/io.c:1451-1452 | Removal of any element keeps that order. |
| FlyingTransfers.Context.Submit | RSCoreUSB/io.c:1287-1332 | The transfer is in the list exactly if the backend accepted it, otherwise the list is what it was; flags are reset; the transfer has a deadline if and only if its timeout is not 0 or it had one before. |
| FlyingTransfers.Context.Cancel | RSCoreUSB/io.c:1348-1369 | The backend's result is returned; the transfer counts as cancelling in any case, and its device as gone if the backend says so. |
| FlyingTransfers.Context.HandleTimeout | RSCoreUSB/io.c:1743-1753 | The transfer is flagged as timed out and cancelled. |
| FlyingTransfers.Context.HandleTimeouts | RSCoreUSB/io.c:1743-1795 | The scan with early exits marks and cancels exactly the transfers a full scan would: deadline set and reached, not yet timed out, not left to the OS. The list is unchanged and nothing is due afterwards. |
| FlyingTransfers.Context.GetNextTimeout | RSCoreUSB/io.c:2200-2258 | The result belongs to the earliest eligible deadline; it is zero exactly if a scan at that instant would mark something, and absent exactly if nothing is eligible. |
| FlyingTransfers.Context.ChooseWait | RSCoreUSB/io.c:1938-1956 | Already expired exactly if a scan would mark something; otherwise the wait exceeds neither the caller's limit nor the remaining time of any eligible transfer, and is one of these. |
| FlyingTransfers.Context.ExpireOrWait | RSCoreUSB/io.c:1984-1995 | What is due is timed out at once; in any case nothing is due any more at that instant. Otherwise the wait is a proper time: the caller's limit or what remains for some eligible transfer, and no longer than either. |
| FlyingTransfers.FullPollFindsExpired | RSCoreUSB/io.c:1860-1871 | After a poll that ran for the whole wait a transfer supplied, the scan finds that transfer expired. |
| FlyingTransfers.Context.Complete | RSCoreUSB/io.c:1437-1486 | The transfer leaves the list and is called back once; it is reported completed exactly if it completed and, where it asked for that, with its full length. |
| FlyingTransfers.Context.CompleteCancelled | RSCoreUSB/io.c:1494-1503 | An asynchronous cancellation is a timeout exactly if the scan marked the transfer. |
| FlyingTransfers.Context.DropTransfers | RSCoreUSB/core.c:1020-1068 | Deleting while iterating drops exactly the closing handle's transfers, keeps the others in order, and clears the handle of those dropped only. |
| FlyingTransfers.Context.FindFirst | RSCoreUSB/io.c:2405-2413 | The first transfer of the handle, if there is one. |
| Disconnect.HandleDisconnect | RSCoreUSB/io.c:2387-2425 | For callbacks that submit, fill in and cancel transfers and close other handles in any way, short of submitting on the dead handle: the loop ends; each transfer of the handle is called back exactly once with NO_DEVICE, in list order; none is left; a transfer leaves only if its handle is this one or is closed; those that stay keep their order among the new ones. |
| Disconnect.CompleteFirst | RSCoreUSB/io.c:2404-2424 | One turn takes the first transfer of the handle out, records its notice and leaves the notices still due. |
| Disconnect.RunCallback | RSCoreUSB/io.c:1473-1478 | Whatever a callback does, the transfers of the dead handle in flight and the notices due stay the same, and the list is the old one without what left, with what was submitted. |
| Disconnect.InsertTracks | RSCoreUSB/io.c:1179-1193 | A submission adds to the list and takes nothing from it. |
| Disconnect.DropTracks | RSCoreUSB/core.c:1028-1068 | What a close drops is missing from the old list as well, and nothing else is. |
| FlyingTransfers.WithoutCounts | RSCoreUSB/core.c:1028-1068 | What is left after a close or disconnect is each other transfer as often as before, and none of the handle's. |
| FlyingTransfers.WithoutKeepsOrder | RSCoreUSB/core.c:1028-1068 | Of two transfers that stay, the first stays first. |
| FlyingTransfers.DropOne | RSCoreUSB/io.c:2404-2424 | Completing the first transfer of the handle leaves the same rest, and its notice is the first of those due. |
| TransferStatus.DarwinStatus | RSCoreUSB/darwin_usb.c:1781-1807 | Timed out exactly if the scan marked the transfer or the kernel reported a transaction timeout; every other status exactly for its kernel result on an unmarked transfer. |
| TransferStatus.DarwinCallback | RSCoreUSB/darwin_usb.c:1809-1849 | Every status exactly for its cause: completed for a success on an unmarked transfer that is whole or need not be, an error for any other kernel result or a transfer that had to be whole and is not; with the length transferred. A transfer of unknown kind stays in flight. |
| TransferStatus.ZeroTimeoutExpires | RSCoreUSB/io.c:1134-1135 | A transfer submitted with timeout 0 that is nevertheless timed out. |
| TransferStatus.StatusResult | RSCoreUSB/sync.c:196-224 | Each result exactly for its statuses; control transfers return the length. |
| TransferStatus.BlockingTransfer | RSCoreUSB/sync.c:160-225 | For any outcome of the event-handling calls: a completed call reports the status of its transfer; a failed wait returns its error, and frees the transfer in flight exactly if a second wait failed before the callback ran. |
| TransferStatus.BlockingCall | RSCoreUSB/sync.c:160-225 | From submission to result, in terms of the inputs alone and in the numbers of `enum libusb_error`: with any number of timeout scans in between, the result is the length (or 0) exactly for a success in time that is whole or need not be, -7 exactly if some scan found the deadline reached on a transfer not left to the OS or the kernel reported a timeout, and -9, -8 and -1 exactly for their causes; the bytes transferred are those of the kernel's success. |
| TransferStatus.ScanAll | RSCoreUSB/io.c:1743-1795 | After any number of scans a transfer is marked if and only if it was before, or some scan ran no earlier than its deadline and the OS does not handle its timeout. |
| Descriptor.SkipStops | RSCoreUSB/descriptor.c:109-140 | A skip loop stops only at a proper header already known to be at least 2 bytes long, or with fewer than 2 bytes left. |
| Descriptor.ParseAltStops | RSCoreUSB/descriptor.c:191-300 | A pass over an alternate setting consumes at least 2 bytes and stops where a skip loop does, so that the next pass is sound and the loop ends. |
| Descriptor.ParseInterfaceStops | RSCoreUSB/descriptor.c:177-307 | An interface consumes at least 2 bytes per alternate setting and stops at a checked header. |
| Descriptor.ParseInterfacePassStops | RSCoreUSB/descriptor.c:351-399 | Starting from a checked header, the loop of the configuration finds no extras. |
| DescriptorAccounting.LeftoverAccounted | RSCoreUSB/descriptor.c:320-404 | On arbitrary bytes the leftover is at most wTotalLength less everything stored, and exactly that if and only if the parser came to no endpoint descriptor too short to be stored. |
| DescriptorAccounting.InterfaceAccounted | RSCoreUSB/descriptor.c:177-307 | The same balance for an interface, with the same condition. |
| DescriptorAccounting.NothingIsDropped | RSCoreUSB/descriptor.c:380-395 | The parser and one that appends every run of extras, as the FIXME asks, give the same result on all bytes. |
| DescriptorAccounting.ExtrasPrecedeFirstInterface | RSCoreUSB/descriptor.c:351-395 | The stored extras are exactly the blocks between the configuration descriptor and the first interface. |
| DescriptorLocality.StoredBytesLieInside | RSCoreUSB/descriptor.c:320-404 | With a leftover that is not negative, a memory that agrees within wTotalLength is rejected or gives the same configuration with a leftover that is not negative either; with 2 or more bytes left the outcome is the same altogether. |
| DescriptorLocality.OutsideBytesMatterExactlyIfStarved | RSCoreUSB/descriptor.c:320-404 | For such a configuration some memory that agrees within wTotalLength has another outcome if and only if the parser comes to an announced endpoint with no byte left, or with one byte left whose value is 1; changing the byte after the end is then enough. |
| DescriptorLocality.StarvedLiesInside | RSCoreUSB/descriptor.c:320-404 | Accepted memories that agree within wTotalLength meet that condition both or neither. |
| DescriptorLocality.InterfacesLocal | RSCoreUSB/descriptor.c:351-399 | The same dependence for the loop over the interfaces, from any position. |
| DescriptorLocality.EndpointsDiffer | RSCoreUSB/descriptor.c:264-289 | At a starved endpoint slot the byte past the end changes how much is consumed, or fails. |
| DescriptorLocality.ByteAfterEndDecides | RSCoreUSB/descriptor.c:76-93 | An 18-byte configuration for which the byte after its end decides acceptance. |
| DescriptorLayout.LaidOutParsesBack | RSCoreUSB/descriptor.c:320-409 | Laying out any well-formed configuration tree and parsing it gives the same tree, every block attached where it belongs, with 0 bytes left. The layout and its well-formedness use the numbers of the specification only. |
| DescriptorLayout.ParsedWasLaidOut | RSCoreUSB/descriptor.c:320-409 | Bytes that parse as a well-formed tree with 0 bytes left are the layout of that tree. |
| DescriptorLayout.ParsesExactlyItsLayout | RSCoreUSB/descriptor.c:320-409 | Both directions: for a well-formed tree the parser accepts exactly its layout. |
| DescriptorLayout.InterfaceParsesBack | RSCoreUSB/descriptor.c:177-307 | The round trip of one interface with all its settings, in front of the end or of the next interface. |
| DescriptorLayout.EndpointsParseBack | RSCoreUSB/descriptor.c:76-153 | The round trip of the endpoints of a setting, with their extras. |
| DescriptorLayout.EndpointFieldsRoundTrip | RSCoreUSB/descriptor.c:42-69 | The fixed fields of an endpoint, in both lengths and both byte orders, are read back as laid out and only then. |
| DescriptorRejects.RejectsExactly | RSCoreUSB/descriptor.c:76-423 | For all bytes, the parser fails if and only if more than 32 interfaces are announced, or it comes to a header shorter than 2 bytes, a descriptor in front of an interface or an endpoint that does not fit, or a setting that announces more than 32 endpoints. |
| DescriptorRejects.SkipExactly | RSCoreUSB/descriptor.c:108-145 | For all bytes, a skip loop fails exactly at a header that is refused after descriptors that can be skipped; otherwise it skips all of these and stops before a descriptor of type 1, 2, 4 or 5, or the end. |
| DescriptorRejects.EndpointOfAnyLength | RSCoreUSB/descriptor.c:76-170 | What is stored of an endpoint descriptor of any length: nothing below 7 bytes, the standard fields from there on, the two audio fields from 9 bytes on. |
| DescriptorLoops.SkipDescriptors | RSCoreUSB/descriptor.c:109-132 | The skip loop computes the skip function. |
| DescriptorLoops.ReadEndpoint | RSCoreUSB/descriptor.c:76-153 | The value and the count returned are those of the endpoint function, on every path. |
| DescriptorLoops.ReadEndpoints | RSCoreUSB/descriptor.c:264-289 | The endpoint loop computes all bNumEndpoints slots. |
| DescriptorLoops.ReadAlt | RSCoreUSB/descriptor.c:191-289 | One turn of the settings loop computes the setting function, errors and early return included. |
| DescriptorLoops.ReadInterface | RSCoreUSB/descriptor.c:177-307 | The settings loop computes the interface function. |
| DescriptorLoops.ReadConfiguration | RSCoreUSB/descriptor.c:320-409 | The whole parser computes the configuration function, to which the theorems apply. |
| NetServiceResolve.OneShot | RSNetwork/NetServices/RSNetServices.c:990-1508 | For every order of replies, timers and cancels the client is told at most once; then no reference and no source is left, and nothing that happens later changes anything. |
| NetServiceResolve.NeverStuck | RSNetwork/NetServices/RSNetServices.c:990-1508 | While the client stays, sources can be created and the A query does not fail alone: the resolve is over exactly when the client has been told, and until then a live query has its socket or a cancel is pending. |
| NetServiceHang.HangsExactly | RSNetwork/NetServices/RSNetServices.c:1070-1100 | In every run without cancel or removal, a resolve hangs (the client has not been told and nothing that can happen changes anything) if and only if the A query alone could not be created, the AAAA query is complete, and no short timer was created or a stale A-received flag stands. |
| NetServiceHang.DoomedExactly | RSNetwork/NetServices/RSNetServices.c:1070-1100 | The client can no longer be told by any continuation if and only if the A query alone could not be created, and the stale flag stands or the AAAA query is complete without a short timer. |
| NetServiceHang.RunStays | RSNetwork/NetServices/RSNetServices.c:990-1508 | Where such a run can be: what is live, complete and received, with and without the lost A query. |
| NetServiceResolve.LongTimerReportsTimeout | RSNetwork/NetServices/RSNetServices.c:1134-1202 | The long timer reports only a timeout, and only when no address has come. |
| NetServiceReports.TellsExactly | RSNetwork/NetServices/RSNetServices.c:990-1508 | Over every run, what the client is told: by the reply to the resolve its own error or that of the AAAA query, by the last answer to both address queries success, by the long timer a timeout if nothing was heard, by the short timer success if enough was (or a pending cancel), by the cancel source the cancel; and by nothing else. |
| NetServiceReports.AnswersCount | RSNetwork/NetServices/RSNetServices.c:1361-1508 | Over every run the addresses are exactly the usable answers heard since the resolve began, and the Received flags tell whether any answer of the record came. |
| NetServiceReports.TimesOut | RSNetwork/NetServices/RSNetServices.c:1134-1202 | Over every run of a resolve with a timeout, the long timer stays set as long as anything but a cancel is under way, and tells the client that the time is up if nothing has been heard. |
| NetServiceReports.RemovalSilences | RSNetwork/NetServices/RSNetServices.c:2564-2625 | Over every run: a client that has gone is told nothing more, and if it goes before the reply to the resolve query, nothing is left under way for good. |
| NetServiceResolve.RunKeepsInv | RSNetwork/NetServices/RSNetServices.c:990-1508 | The invariant of flags, references and sources holds after every run. |
| NetServiceResolve.StepKeepsInv | RSNetwork/NetServices/RSNetServices.c:990-1508 | Every event keeps that invariant, the re-entrant poll of the short timer included. |
| NetServiceResolve.NetService.Resolve | RSNetwork/NetServices/RSNetServices.c:2255-2433 | With nothing outstanding but perhaps a cancel, which is called off, a resolve starts in the initial state of the runs, or fails and leaves nothing outstanding. |
| NetServiceResolve.NetService.CancelDnsService | RSNetwork/NetServices/RSNetServices.c:598-633 | The first matching socket leaves the list of sources, and nothing else. |
| NetServiceResolve.NetService.ResolveReply | RSNetwork/NetServices/RSNetServices.c:990-1130 | The method makes exactly the step of a resolve reply. |
| NetServiceResolve.NetService.AddressReply | RSNetwork/NetServices/RSNetServices.c:1361-1508 | The method makes exactly the step of an address reply. |
| NetServiceResolve.NetService.LongTimerCallBack | RSNetwork/NetServices/RSNetServices.c:1134-1202 | The method makes exactly the step of the long timer. |
| NetServiceResolve.NetService.ShortTimerCallBack | RSNetwork/NetServices/RSNetServices.c:1206-1357 | The method makes exactly the step of the short timer, with the answers its poll delivers. |
| NetServiceResolve.NetService.Cancel | RSNetwork/NetServices/RSNetServices.c:2437-2560 | The method makes exactly the step of a cancel. |
| NetServiceResolve.NetService.PerformCancel | RSNetwork/NetServices/RSNetServices.c:550-594 | The method makes exactly the step of the cancel source. |
| NetServiceResolve.NetService.RemoveClient | RSNetwork/NetServices/RSNetServices.c:2564-2625 | The method makes exactly the step of removing the client. |
| NetServiceBrowser.ClientKnowsWhatIsThere | RSNetwork/NetServices/RSNetServiceBrowser.c:374-566 | For every run of replies whose counts fit 32 bits: whenever a reply announces no more, the client knows exactly the services with a positive tally of additions less removals. |
| NetServiceBrowser.RunAgrees | RSNetwork/NetServices/RSNetServiceBrowser.c:439-482 | Throughout a run `_adds` and `_removes` are disjoint and free of duplicates and what the client knows with the buffers applied is the key set of `_found`, if and only if no tally ever exceeds 32 bits; each count is then the tally. |
| NetServiceBrowser.IncrementAgrees | RSNetwork/NetServices/RSNetServiceBrowser.c:443-461 | An addition keeps the agreement if and only if the 32-bit count does not overflow. |
| NetServiceBrowser.DecrementAgrees | RSNetwork/NetServices/RSNetServiceBrowser.c:464-479 | A removal keeps the agreement; for an unknown service it changes nothing, despite the unsigned wrap. |
| NetServiceBrowser.OnlyTheLastIsFinal | RSNetwork/NetServices/RSNetServiceBrowser.c:502-547 | Exactly the last callback of a flush lacks MoreComing, additions and removals taken together. |
| NetServiceBrowser.FlushAgrees | RSNetwork/NetServices/RSNetServiceBrowser.c:502-557 | After a flush the client knows exactly `_found`. |
| NetServiceBrowser.HearingAgrees | RSNetwork/NetServices/RSNetServiceBrowser.c:508-551 | The agreement holds at every callback of a flush as well. |
| NetServiceBrowser.AnnouncedTwice | RSNetwork/NetServices/RSNetServiceBrowser.c:443-482 | A service stands in `_adds` although the client has it if and only if it was there at the last flush, has been gone since, and is there again; and dually for `_removes`. |
| NetServiceBrowser.BuffersTellChanges | RSNetwork/NetServices/RSNetServiceBrowser.c:443-482 | In every run `_adds` holds exactly what is there now and was not at some time since the last flush, `_removes` what is not there now and was, and the client knows what was there at that flush. |
| NetServiceBrowserSession.Browser.AnnounceAll | RSNetwork/NetServices/RSNetServiceBrowser.c:508-551 | A pass makes the announcements in order, with what the client does in each, and stops after the one in which it ends the search. |
| NetServiceBrowserSession.Browser.FlushBuffers | RSNetwork/NetServices/RSNetServiceBrowser.c:502-557 | The two passes and the emptying of the lists make exactly the flush of the session. |
| NetServiceBrowserSession.Browser.BrowseReply | RSNetwork/NetServices/RSNetServiceBrowser.c:374-566 | The method makes exactly the step of a reply: counting, flush, error or ended browse. |
| NetServiceBrowserSession.Browser.StopSearch | RSNetwork/NetServices/RSNetServiceBrowser.c:1030-1129 | The method makes exactly the step of a stop: nothing found is left and the trigger is another one. |
| NetServiceBrowserSession.Browser.InvalidateBrowser | RSNetwork/NetServices/RSNetServiceBrowser.c:677-721 | The method makes exactly the step of an invalidation: nothing found, no trigger and no callback is left. |
| NetServiceBrowserSession.Browser.BrowserCancel | RSNetwork/NetServices/RSNetServiceBrowser.c:193-236 | The method makes exactly the step of the cancel source: the stored error is reported once, and no trigger is left. |
| NetServiceBrowserSession.Browser.SearchForServices | RSNetwork/NetServices/RSNetServiceBrowser.c:865-1026 | The method makes exactly the step of a search, which starts exactly if there is a callback, no search is running, and both creations succeed. |
| NetServiceBrowserSession.AnnouncesUnlessRefused | RSNetwork/NetServices/RSNetServiceBrowser.c:484-563 | After every sequence of client calls and replies, a running search announces services if and only if no other search was refused since it began; otherwise every reply reports the refusal. |
| NetServiceBrowserSession.ErrorTellsRefusal | RSNetwork/NetServices/RSNetServiceBrowser.c:896-907 | The stored error of a running search is set if and only if another was refused since it began, by a call or in a callback. |
| NetServiceBrowserSession.SecondSearchSilences | RSNetwork/NetServices/RSNetServiceBrowser.c:896-907 | A second search call leaves the running search silenced, with all it has found. |
| NetServiceBrowserSession.FlushMeans | RSNetwork/NetServices/RSNetServiceBrowser.c:502-557 | A flush makes the announcements up to the one in which the client ends the search; otherwise the client hears them all. |
| NetServiceBrowserSession.FollowsReplies | RSNetwork/NetServices/RSNetServiceBrowser.c:374-566 | Over searches, stops and replies, what a running search knows is what the replies since it began say. |
| NetServiceBrowserSession.ClientOfRunningSearch | RSNetwork/NetServices/RSNetServiceBrowser.c:374-566 | Over whole sessions: after a reply that announces no more, the client of a running search that was not silenced knows exactly what is there. |
| NetServiceBrowserRuns.SearchingExactly | RSNetwork/NetServices/RSNetServiceBrowser.c:865-1026 | Over every sequence of events: a search runs if and only if one has begun with a callback, none running and both creations successful, and since then no reply had an error and the client has not ended it. |
| NetServiceBrowserRuns.SearchOutcome | RSNetwork/NetServices/RSNetServiceBrowser.c:865-1026 | After any events a call to search runs with nothing found, or stores exactly the error that stands against it. |
| NetServiceBrowserRuns.ErrorEndsSearch | RSNetwork/NetServices/RSNetServiceBrowser.c:388-411 | After any events a reply with an error ends the running search, tells the client that error once and leaves nothing found; later replies change nothing. |
| NetServiceBrowserRuns.StopIsReported | RSNetwork/NetServices/RSNetServiceBrowser.c:1030-1129 | A client that stops its search is told its own error by the cancel source, if there is one, and nothing before. |
| NetServiceBrowserRuns.CallbacksTellWhatIsThere | RSNetwork/NetServices/RSNetServiceBrowser.c:484-563 | The callbacks made since a search began, taken together, tell exactly the services that are there, whenever a reply announces no more. |
| HostLookupTheorems.OneMasterPerAwaitedName | RSNetwork/Host/RSHost.c:750-875 | In every state reached without a failed creation of a master and with nothing that comes late: a name is in `_HostLookups` exactly while some host waits for a master that has not taken its list; that master, at the head of the list, looks the name up or has just replied; no other master runs for the name, and none runs for a name that is not in the table. |
| HostLookupTheorems.StepKeepsInv | RSNetwork/Host/RSHost.c:1578-1789 | Each event keeps table, masters, waiting hosts and completions under way together if and only if it is neither the failure to create the master of a new list nor one that comes late: a completion that takes the list of another master, or an answer or a call of a source that reaches a host that waits anew. |
| HostLookupTheorems.StartKeepsInv | RSNetwork/Host/RSHost.c:750-875 | A start keeps everything together exactly unless the master of a new list cannot be created, which leaves an empty list; the master may reply before its first client has joined. |
| HostLookupTheorems.WaiterLeaves | RSNetwork/Host/RSHost.c:2229-2268 | A host that leaves takes just its own source out of its list; the last one takes the master and the entry; nothing else changes. |
| HostLookupTheorems.MasterRepliesKeepsInv | RSNetwork/Host/RSHost.c:1081-1210 | A master whose own lookup has ended still serves the list it heads. |
| HostLookupTheorems.TakeListKeepsInv | RSNetwork/Host/RSHost.c:1586-1599 | Taking a list keeps everything together if and only if no list stands under the name, or one with that same master first. |
| HostLookupTheorems.AnswerKeepsInv | RSNetwork/Host/RSHost.c:1646-1722 | An answer made after the table lock was dropped keeps everything together if and only if its host does not already wait for another master. |
| HostLookupTheorems.PerformKeepsInv | RSNetwork/Host/RSHost.c:1749-1789 | The call that ends a lookup keeps everything together if and only if its host does not stand in a list. |
| HostLookupTheorems.PerformCancelKeepsInv | RSNetwork/Host/RSHost.c:332-380 | The same for the call of a cancel source, which changes nothing for a host without a lookup. |
| HostAnswers.AnswersAllAlike | RSNetwork/Host/RSHost.c:1578-1726 | With nothing in between, a completion that takes its own list removes the entry and answers exactly the hosts that wait for it, all with the same error or addresses, save for a failed copy. |
| HostAnswers.BatchesWait | RSNetwork/Host/RSHost.c:1586-1599 | Whatever happens between the answers, only the callback takes clients from its list, one at a time and in order, with the same answer for all. |
| HostAnswers.AnswerReaches | RSNetwork/Host/RSHost.c:1646-1722 | An answer gives its client the error, stores the result under the type that the host resolves at that time, signals the lookup if it still waits, and signals NULL if there is none; no other host changes. |
| HostAnswers.NullSignalledExactly | RSNetwork/Host/RSHost.c:1690-1691 | Over every run since the list was taken: the next answer signals NULL if and only if its host has given up its lookup in that run, with no resolution accepted after that. |
| HostAnswers.LookupIsGoneExactly | RSNetwork/Host/RSHost.c:2199-2394 | Over every run, a host has no lookup if and only if it had none and none was accepted, or it gave one up and none was accepted since. |
| HostAnswers.StepKeepsBalance | RSNetwork/Host/RSHost.c:1749-1789 | Each event keeps accepted resolutions equal to reports and those under way, for every host with a client, if and only if it is neither a cancel without its source nor a call of `_AddressLookupPerform` for a host without a lookup. |
| HostAnswers.ReportedOnce | RSNetwork/Host/RSHost.c:332-380 | Over every run without such an event, every accepted resolution is reported to its client exactly once or still under way, however it ends. |
| HostReports.ReplyIsTold | RSNetwork/Host/RSHost.c:1749-1789 | Over every run from the reply of a master, whatever other threads do, with nothing that comes late: the client of a waiting host is told once its source is called, and then exactly the master's error with no result, or its addresses without error, or, if they could not be copied, that there was no memory. |
| HostReports.EarlyReplyIsTold | RSNetwork/Host/RSHost.c:767-829 | The same for a reply that comes before the first client has joined the new list. |
| HostReports.ReplyCanBeTold | RSNetwork/Host/RSHost.c:1578-1789 | From every state in which a host waits for a running master there is such a run in which its client is told. |
| HostReports.StartIsAnswered | RSNetwork/Host/RSHost.c:750-875 | What a start comes to for its host, by which creation succeeds: it waits without error, or has the error that stands against it. |
| HostReports.CancelIsTold | RSNetwork/Host/RSHost.c:332-380 | A waiting host that cancels is told so by its cancel source, with no error and what it knew before. |
| HostFailures.StrandedAfterFailure | RSNetwork/Host/RSHost.c:796-806 | After the failure the next host with the name is accepted, with no master that could answer it. |
| HostFailures.TwoMastersAfterForeignTake | RSNetwork/Host/RSHost.c:1586-1599 | Whenever a completion takes the list of another master that is running, that master runs on for a name that is not in the table, and the next start makes a second one run for it. |
| HostFailures.ForeignTakeHappens | RSNetwork/Host/RSHost.c:1204-1210 | A run from rest, with nothing that comes late and no failure, to the state in which that happens: start, reply, cancel, start again. |
| HostRegistry.Registry.MasterReplies | RSNetwork/Host/RSHost.c:1081-1205 | The method makes exactly the step by which a master's own lookup ends. |
| HostRegistry.Registry.FindOrMakeList | RSNetwork/Host/RSHost.c:767-829 | The list for the name with its master, or the error and what each failure leaves in the table. |
| HostRegistry.Registry.StartResolution | RSNetwork/Host/RSHost.c:2058-2134 | The method makes exactly the step of a start. |
| HostRegistry.Registry.LeaveTable | RSNetwork/Host/RSHost.c:2229-2268 | The source leaves the list, and the last one takes the master and the entry. |
| HostRegistry.Registry.CancelResolution | RSNetwork/Host/RSHost.c:2199-2317 | The method makes exactly the step of a cancel. |
| HostRegistry.Registry.ForgetClient | RSNetwork/Host/RSHost.c:2321-2394 | The method makes exactly the step of removing the client. |
| HostRegistry.Registry.PerformLookup | RSNetwork/Host/RSHost.c:1749-1789 | The method makes exactly the step of the call that ends a lookup, whichever lookup the host has by then. |
| HostRegistry.Registry.PerformCancel | RSNetwork/Host/RSHost.c:332-380 | The method makes exactly the step of the call of a cancel source. |
| HostRegistry.Registry.TakeClients | RSNetwork/Host/RSHost.c:1586-1599 | The method makes exactly the step by which a completion takes the list that it finds, for any master that has replied. |
| HostRegistry.Registry.AnswerClient | RSNetwork/Host/RSHost.c:1646-1722 | The method makes exactly the step of one answer. |
| HostRegistry.Registry.MasterCallBack | RSNetwork/Host/RSHost.c:1578-1726 | With nothing in between, taking the list and the loop over it make all answers, for any master that has replied. |
| DeviceRegistry.Bus.RefDevice | RSCoreUSB/core.c:822-827 | One more reference, counted. |
| DeviceRegistry.Bus.UnrefDevice | RSCoreUSB/core.c:834-857 | One reference less; the device leaves `usb_devs` exactly with its last one. |
| DeviceRegistry.Bus.AllocDevice | RSCoreUSB/core.c:521-546 | A new device with one reference, first in the list, with a session of its own. |
| DeviceRegistry.Bus.Open | RSCoreUSB/core.c:922-966 | An open handle is one reference; a failed open leaves none. |
| DeviceRegistry.DiscoveredDevs.Append | RSCoreUSB/core.c:485-508 | The array grows by 8 when full, keeps its contents, and the appended device gains one reference; a failed growth changes nothing. |
| DeviceRegistry.ProcessNewDevice | RSCoreUSB/darwin_usb.c:765-850 | On every path a device that is appended has gained one reference and nothing else is left behind; sessions stay unique. |
| DeviceRegistry.DiscoverDevices | RSCoreUSB/darwin_usb.c:852-880 | The devices found are those of the sightings that succeed, in order, each with a reference of its own. |
| DeviceRegistry.GetDeviceList | RSCoreUSB/core.c:613-648 | The list holds, in order, the sessions of exactly the sightings that check out, have or get a device, and find or get room; on every path the references that remain are those of the returned list, and a device that is new has one for each of its places in it; a failure returns its own error. |
| DeviceRegistry.FreeDeviceList | RSCoreUSB/core.c:658-670 | Exactly the references of the list are given up, if asked for. |
| DeviceRegistry.ListThenFree | RSCoreUSB/core.c:612-670 | Listing and freeing restores every count and the membership of `usb_devs`. |
| InternedList.SameContentSameNode | RSCoreFoundation/RSBase/FP/RSList.c:66-84 | Two chains hold the same values exactly if they are the same node. |
| InternedList.ContentStays | RSCoreFoundation/RSBase/FP/RSList.c:187-201 | A new node changes no existing chain. |
| InternedList.Pool.GetNode | RSCoreFoundation/RSBase/FP/RSList.c:66-84 | The node for a value and a tail, made only once; no other list changes. |
| InternedList.List.Conjoin | RSCoreFoundation/RSBase/FP/RSList.c:225-231 | The value comes first in this list, in place; every other list keeps its values, shared nodes or not. |
| InternedList.List.EqualListsShareTheirHead | RSCoreFoundation/RSBase/FP/RSList.c:251-266 | Lists over one pool are equal exactly if their heads are the same node, however they were built. |
| InternedList.List.CreateWithArray | RSCoreFoundation/RSBase/FP/RSList.c:409-417 | The list holds the values of the array in order, and no list changes. |
| InternedList.List.CreateArray | RSCoreFoundation/RSBase/FP/RSList.c:438-447 | The array holds the values of the list, which makes array to list to array the identity. |
| InternedList.List.CreateDrop | RSCoreFoundation/RSBase/FP/RSList.c:425-436 | The suffix after n values, or nothing for more values than there are. |
| InternedList.List.Next | RSCoreFoundation/RSBase/FP/RSList.c:323-341 | The suffix after one value, or nothing for fewer than two values. |

## Left out

- FlyingTransfers.Context.Submit: a transfer is not submitted while it is in flight, the clock can be read, and `timeval` fields do not overflow.
- Disconnect.HandleDisconnect: no other thread closes the handle between the scan and the completion of the transfer found; a submission of a transfer that is in flight is not made.
- FlyingTransfers.Context.Complete: freeing transfers after the callback (`LIBUSB_TRANSFER_FREE_TRANSFER`) is not modelled, nor a completion of a transfer that a close has already dropped.
- TransferStatus.DarwinCallback: the results of single isochronous packets are not modelled.
- DescriptorLoops.ReadConfiguration: structures and arrays that the C code fills and reallocates are values here; allocation failures of the parser are not modelled.
- NetServiceResolve.OneShot: replies that re-enter with record type 0 after a socket error, and a resolve started while another is in progress, are not modelled; the run loop performs a cancel source only while it is in the list of sources.
- NetServiceResolve.NetService.ShortTimerCallBack: other threads cannot act while the poll has the lock released; on the level of runs they can, since answers are events of their own.
- NetServiceHang.HangsExactly: replies come only to live queries and timers fire only if set; `NetServiceResolve.OneShot` does without these assumptions.
- NetServiceBrowserSession.Browser.BrowseReply: a callback does not run the run loop, nor start another search after it has ended this one, within the flush; no two triggers have the same address; domain searches are not modelled.
- HostFailures.StrandedAfterFailure: reading element 0 of the empty list gives nothing, as in `RSArray`; a build whose array halts instead stops there. The address cache and its expiry are not modelled.
- HostAnswers.ReportedOnce: a host has its client from the start or never; `RSHostSetClient` with a client and resolutions that block are not modelled.
- HostRegistry.Registry: hosts are values in a map, not objects with locks of their own; between two methods anything may happen, within one nothing does.
- InternedList.Pool.GetNode: the pool is keyed by the tail node itself; hashing and structural comparison of nodes are not modelled.
- DeviceRegistry.Bus.Open: the interrupts that open and close send are in the event model; the mutexes of single devices are not modelled.
- The event model has no users of `libusb_lock_events` and `libusb_handle_events_locked` of their own, no open or close from within a callback, and no thread that starts to handle events while it holds the events lock.
- Time-outs of threads asleep in `libusb_wait_for_event` are a step to awake at any time; durations are in the transfer model only.
- timerfd, the Windows branches, IOKit, Mach ports, CFRunLoop, DNS-SD and poll are environment steps or absent.
- Scheduling of sources on run loops, TXT records, legacy registration, name and reachability lookups.
- Interface claims, default contexts, iso packet addresses and maximum packet sizes: easy members beside these.
- `RSNth`, printing and memory management of lists.
