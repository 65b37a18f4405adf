# CryptoCard driver and page-fault handler: a verification model

The repository has two hard parts, and this project models both.

**The CryptoCard.** Any number of handles share one card through a semaphore, a wait queue, an
interrupt handler and two start/busy registers. Above the driver a user library cuts a buffer
of any length into writes of at most 32768 bytes.

* `Machine` is the driver as a state machine: one event is one statement of a client's call, one
  action of the card, or one action of the interrupt handler. `Semaphore`, `Buffers`, `Mappings`,
  `Frames`, `Isolation`, `Handover`, `EndToEnd`, `Settings`, `Mapped`, `Wakeups`, `Fairness`, `Liveness`,
  `Success` and `Probe` prove invariants of its steps and lift them to all runs; `Chunks`, `Windows` and
  `Counter` hold the facts about cutting and repeated passes.
* `Hazards`, `Spoiling`, `Mixing` and `Splitting` show that the hypotheses about one event are exact:
  whenever one is violated the run can go on to the wrong bytes, or to the lost wake-up. `Paths` and
  `Ways` hold what they need about ways on. `Witness` builds, with `Runs`, such runs from the start of
  the system, and runs against the other hypotheses.
* `Ioctl`, `Bar`, `Driver` and `Crypter` are the code in its own imperative form: the handle's
  record updated in place, the BAR as an array of bytes, `pci_write` reading and writing those bytes
  register by register, and the library's loops. The machine and the code meet the same specification
  of a call, `Chunks.Processed` and `Windows.Passes`.

**The page-fault handler.** `Vmalloc64` and `Vmalloc32` model the lazily copied kernel page tables
against the reference table, `PageFault` the retrying lock protocol and the accounting, `Prefetch`
the opcode scanner, and `ReservedBit` the module that arms bit 50 of a 64-bit entry and the hook that
clears it.

`dafny verify dfyconfig.toml` checks everything.

## Main results

* `EndToEnd.CallEffect` and `EndToEnd.StepRefines`: in every interleaving, signals and interrupted waits
  of others included, and in all four transfer modes, a successful call gives the caller exactly the
  cipher of its own bytes under its own key and direction, unless one of three things happens to it:
  a store of another byte into its message in the window, its coming in to a forgotten operation that
  has still to replace bytes of the window, or its being given the memory of one. The first two
  concern only a caller that works through the window (`EndToEnd.DmaCallEffect`).
  `EndToEnd.RoundTrip` lifts this to encrypt and decrypt of any length.
* `Hazards.HazardExactly`: those three events, and no others, can make a write return 0 with wrong bytes.
* `Spoiling.SpoiltExactly`: the same for mapped calls. If at most one event of a mapped call could
  spoil the window, the call has its effect there exactly if that event does not.
* `Semaphore.MutualExclusion`, `Handover.IdleHandOver`, `Buffers.BuffersConserved`: mutual exclusion,
  an idle card behind a free semaphore, every buffer freed exactly once. `Mappings.MapRun` and
  `Mappings.BalancedExactly`: what is mapped for DMA in every run, and exactly when all is unmapped.
* `Settings.SettingsAreCommands`, `Settings.KeyLoaded`, `Settings.OperationAsConfigured`: over every run
  the five settings of a handle, the key it loads and the operations it starts are those of the last
  commands of its own groups.
* `Wakeups.NoLostWakeup` and `Fairness.HelpfulBudget`: no lost wake-up, and progress in the schedule that
  happens: while a client waits some event that brings it nearer is always enabled, no event takes
  it back, and at most seven such events can occur. `Fairness.FairWaitEnds`: every fair infinite
  schedule ends every wait. `Liveness.CallReturns`: if the semaphore is fair too, every call returns.
* `Success.SucceedsExactly`: in every run a call returns 0 exactly if none of its own statements fails.
  `Success.CallSucceeds`: in a fair schedule a call in which nothing fails comes to its end, returns 0,
  and, if nothing disturbs it, has the caller's bytes enciphered.
* `Mixing.LostExactly`: in every run, an interrupt-driven operation started while the handler is idle can,
  with an uninterrupted handler, leave its writer asleep for ever exactly if an interrupt of the other
  mode is outstanding at that moment. `Splitting.SplitExactly`: the same for a handler that may be interrupted, where an interrupt
  of either mode will do. `Wakeups.DeadForever` and the runs in `Witness`: what a lost wake-up means, and
  how it comes about.
* `Counter.UndoneExactly`: for every length below 2^64, every good card undoes a mapped call exactly if the
  call is one write or whole chunks only. `Mapped.MappedRoundTripWhole` and, for every length with a
  byte-by-byte cipher, `Mapped.MappedRoundTrip` lift the positive side to runs.
* `Driver.CardDriver.PciWrite`, `Driver.ZeroExactly`, `Driver.ErrorsExactly`: the code of `pci_write`, when
  exactly it returns 0 and each of its errors, and what it has then done. `Crypter.Encrypt`,
  `Crypter.Decrypt`, `Crypter.ThereAndBack`, `Crypter.CallFailed`: the library's code, with every failure.
* `Vmalloc64.ReferenceAgreement`, `Vmalloc64.FaultFollowsChain`, `Vmalloc64.OneFaultIsEnough`: agreement
  with the reference over all runs, with four and five levels, down to the page and its size.
  `Vmalloc32.Memory.VmallocSyncAll`: full synchronisation of every address of the area, and a bug exactly
  on a prior conflict.
* `PageFault.Task.DoPageFault`, `PageFault.EndsEarly`, `PageFault.EndsLate`, `PageFault.AccountingAddsUp`: lock
  discipline on every path, exactly when each ending comes about, and accounting over every sequence
  of faults. `Prefetch.ScanPrefetch`: the scanner against the bytes of a prefetch.
* `ReservedBit.Invisible`, `ReservedBit.OneFaultPerArming`, `ReservedBit.Demo.Session`: over careful use the
  tables are, but for bit 50, what the accesses alone make of them, with at most one fault for each
  arming. `ReservedBit.GoesThroughAtLast` and `ReservedBit.MarksBetweenUses`: exactly when a faulting
  access goes through, and exactly which marks any run of accesses clears. `ReservedBit.CrashedExactly`:
  exactly the runs that use a null entry.

## Assumptions

The card is not in the repository. It is an environment: a write to `data_addr`, or to `cmd` with
bit 0 set, starts an operation with the registers as they are then and sets the busy bit; later
the card replaces the bytes, clears busy, and, if asked, owes an interrupt that it raises later. A
live card stores the complement of what is written to `live`. The cipher is any length-preserving
pair with `dec(k, enc(k, s)) == s`; it works byte by byte only where a statement says so. Operations
on the window and on a DMA buffer are kept apart, as the two busy bits are; a second start of the
same kind takes the place of the first. Writing to the acknowledge register clears the bits written
from the interrupt status. A value the handler has read may be stale when it acknowledges it.

The theorems about the driver name their hypotheses:

* `Distinct`: one write in flight per handle. A client is the sequence of calls on one handle.
* `QuietRun`: nobody stores another byte into the message of one given client while it is in the window,
  that client does not come in while an operation has still to replace bytes of the window, and it is
  not given memory of which an operation has still to replace bytes. Only statements about that client
  ask for it; of a client that uses DMA only the last is asked (`OwnMemory`).
* `CalmRun`: no signal cuts a wait short. It is asked for only where the card has to be handed over idle,
  and implies the last two parts of `QuietRun` (`Handover.CalmIsQuiet`).
* `PacedRun`: the interrupt handler is one step, and an interrupt-driven operation is started only when
  no interrupt of the other transfer mode is to come, owed or pending.
* `FairTo`, `FairSemaphore`: in infinite runs, no event of the card, the handler or the client that stays
  enabled is passed over for ever, nor a client that may take the semaphore again and again.
* `UnspoiltRun`: for mapped calls, no event changes bytes of the window but the operations the caller
  waits for. Nobody else using the window implies it in calm runs (`Mapped.CalmIsAlone`).

`Witness` shows reachable runs against `Distinct`, each part of `QuietRun`, `CalmRun`, both parts of
`PacedRun`, and `UnspoiltRun`. The branch of a write is taken from its handle at each statement; with
one write in flight per handle it cannot change on the way. `wait_event_interruptible` is modelled by
the kernel macro's loop: test, enqueue, test again, then a pending signal or sleep. Clients have buffers
of their own. A failed `copy_from_user` of an ioctl argument changes nothing.

The name of a kernel buffer stands for one allocation, not for an address: names are counted, so that
the ledger of allocations and frees can be kept. `vmalloc` may at any allocation hand out again the
memory on which the card still carries out an operation although its buffer has been freed; the
operation then goes on from the start of the new buffer, as far as that reaches, and what else lay
there belongs to nobody. The kernel zeroes nothing on `vfree`, but what a new buffer holds is never
read before it has been filled; the model has zeros there. A DMA handle is the name of the whole
buffer; how `vmalloc` memory lies physically is not modelled.

In the page-fault part, tables keep their shape (an entry leads to a table of the next level), the
reference only gains top-level entries (`Vmalloc64.ReplacedEntryBugs` shows why), and with PAE a
process owns a middle-level table wherever the reference has one. `handle_mm_fault` may do anything
the comment before its call allows, including letting the lock go and taking it again. What other
kernel code decides (`find_vma`, signals, `kprobes_fault` and the like) is the parameter `World`.

Where code and documentation part:

* The comments at the top of `encrypt` and `decrypt` promise an operation on any address. For mapped
  callers the driver ignores the pointer, so a call longer than 32768 bytes passes over the first
  32768 bytes again and again. With a cipher that is not byte by byte it need not be undone.
* `set_config` documents SET and UNSET; any other value is taken as "no interrupts", even for DMA.

## Model

| member | source | states |
|---|---|---|
| `Ioctl.Handle.Open` | drivers/cryptocard_mod.c:488-503 | a newly opened handle encrypts by polled MMIO, mapped, under key 0, and names no buffer |
| `Ioctl.Handle.Ioctl` | drivers/cryptocard_mod.c:267-334 | one ioctl on the record in place is the function `Apply` of it, with the same return value, and leaves the buffer alone |
| `Ioctl.Configuration` | drivers/cryptocard_mod.c:267-334 | after any command history each setting is the last accepted command of its own group, or what `pci_open` put there |
| `Ioctl.LastWord` | drivers/cryptocard_mod.c:267-334 | an accepted command decides its group whatever came before and whatever is asked of other groups later |
| `Ioctl.Rejected` | drivers/cryptocard_mod.c:279-331 | an ioctl fails exactly when its argument is unreadable (-EAGAIN) or names nothing (-EINVAL; which codes do is listed), and then changes nothing |
| `Ioctl.Accepted` | drivers/cryptocard_mod.c:279-331 | each of the eight codes, and the key, set their one field as the source does, and no other |
| `Ioctl.LibraryConfiguration` | src/crypter.c:108-138 | after `set_key` the key is `a*256+b`, and after `set_config` with SET or UNSET its setting is as asked, through any later commands that are not accepted ones of the same group |
| `Ioctl.StrayConfigValue` | src/crypter.c:124-138 | any other value is accepted as "no interrupts", even when DMA was meant |
| `Settings.StepObeys` | drivers/cryptocard_mod.c:267-334 | one step of the whole driver changes a handle's settings only by that handle's own ioctl, and then as `pci_unlocked_ioctl` does |
| `Settings.SettingsAreCommands` | drivers/cryptocard_mod.c:267-334 | in every state of every run all five settings of every handle are the last accepted command of their group among that handle's own, the library's ioctls included, or what `pci_open` put there |
| `Settings.KeyLoaded` | drivers/cryptocard_mod.c:379 | the key written at the start of an operation is the last one the handle's own commands set |
| `Settings.OperationAsConfigured` | drivers/cryptocard_mod.c:379-461 | in every run the operation the card starts has the mode, direction, key and interrupt setting of the handle's last commands, and the write's length |
| `Settings.SetKeyLasts` | src/crypter.c:108-116 | after `set_key(a, b)` operations load `a*256+b` until the handle's next key, whatever happens in between |
| `Settings.SetConfigLasts` | src/crypter.c:124-138 | after `set_config` with SET or UNSET the handle stays so configured until its next command for that setting |
| `Semaphore.SemStep` | drivers/cryptocard_mod.c:374-485 | every step keeps: count 0 or 1, 1 exactly when the section is empty, one writer inside at most, each down answered by one up |
| `Semaphore.MutualExclusion` | drivers/cryptocard_mod.c:374-485 | those facts in every state of every run, interrupted waits included |
| `Buffers.BufStep` | drivers/cryptocard_mod.c:361-372 | every step keeps: live buffers have exactly one owner, and each allocation is freed at most once |
| `Buffers.BuffersConserved` | drivers/cryptocard_mod.c:473-485 | in every run, once all calls have returned each buffer ever allocated has been freed exactly once and nothing else has |
| `Buffers.BetweenWrites` | drivers/cryptocard_mod.c:473-485 | in every run a handle names a buffer only while a write is under way |
| `Mappings.MapStep` | drivers/cryptocard_mod.c:425-466 | every step, interrupted waits, stores and reused memory included, keeps: the allocations mapped for DMA are those of writes in flight and those left by interrupted waits |
| `Mappings.MapRun` | drivers/cryptocard_mod.c:425-466 | that in every state of every run |
| `Mappings.BalancedExactly` | drivers/cryptocard_mod.c:425-466 | once all calls have returned, the mapped buffers are those of interrupted DMA waits: map and unmap balance exactly if there was none |
| `Isolation.IsoStep` | drivers/cryptocard_mod.c:361-471 | every step keeps what the section relies on: registers and operations hold the holder's own key, direction, length and buffer; and for the one client that nothing disturbs, its kernel buffer and its message in the window hold its own bytes, on which the card works only while that client waits for it |
| `Isolation.IsoRun` | drivers/cryptocard_mod.c:361-471 | that in every state of every run with one client to a handle, signals, interrupted waits, stores and reused memory included |
| `Isolation.QuietIso` | drivers/cryptocard_mod.c:361-471 | and with its bytes counted for a client from a point on at which it has no buffer, as long as nobody stores another byte into its message, it does not come in to a forgotten operation on the window, and is not given the memory of one |
| `Handover.CalmStep` | drivers/cryptocard_mod.c:374-485 | a step that cuts no wait short keeps: a free semaphore means a card at rest, and inside the section the card does only what the holder waits for |
| `Handover.BusyMeansHeld` | drivers/cryptocard_mod.c:374-485 | then a busy card is always working for the writer inside the section who waits for it, a DMA operation on that writer's own buffer |
| `Handover.IdleHandOver` | drivers/cryptocard_mod.c:472-479 | in runs without interrupted waits a free semaphore means an idle card and nothing mapped for DMA |
| `Handover.CalmIsQuiet` | drivers/cryptocard_mod.c:374-485 | so nothing but a store into its message can disturb a caller in such a run: nothing is forgotten, on the window or in memory |
| `Hazards.Borne` | drivers/cryptocard_mod.c:361-471 | for every good card: after an event that does not disturb a write, however it goes on undisturbed to return 0, the caller has the cipher of its own bytes |
| `Ways.CarriesOn` | drivers/cryptocard_mod.c:379-471 | in all four modes a write inside the section can always go on to return 0, delivering what its bytes have become |
| `Ways.FromDown` | drivers/cryptocard_mod.c:374-479 | so can a write at the semaphore, with the cipher of whatever its kernel buffer holds: whoever holds the semaphore can be got out |
| `Hazards.Inheriting` | drivers/cryptocard_mod.c:364 | being given the memory of a forgotten DMA operation can be followed by a return of 0 with wrong bytes, nothing else disturbing the write |
| `Hazards.HazardExactly` | drivers/cryptocard_mod.c:355-479 | for one good card and any state in which the write has not been disturbed: an event between the entry of an unmapped write and its copy-out can be followed by a return of 0 with wrong bytes, nothing else disturbing the write, exactly if it is a store of another byte into the message in the window, coming in to an operation that has still to replace bytes of the window, or being given memory of which one has still to replace bytes |
| `Hazards.HazardInRun` | drivers/cryptocard_mod.c:355-479 | the same for the next event of any run that has not disturbed the caller since it was last between calls |
| `EndToEnd.StepRefines` | drivers/cryptocard_mod.c:379-471 | mode refinement: in all four transfer modes a step changes a caller's buffer only at its own copy-out, and then to the cipher of its own bytes under its own key and direction |
| `EndToEnd.CallEffect` | src/crypter.c:42-100 | isolation of a call in any interleaving, interrupted waits and reused memory included, in which none of the three hazards befalls the call itself: 0 means the chunked cipher of its own old bytes; otherwise ERROR with whole earlier chunks done and at most part of one more |
| `EndToEnd.DmaCallEffect` | src/crypter.c:42-100 | the same for a call by DMA in every run with one client to a handle, whatever stores, signals and interrupted waits it holds, that does not give the call itself memory of which a forgotten operation has still to replace bytes |
| `EndToEnd.IdleKeeps` | src/crypter.c:108-138 | between its calls a client that only uses `set_config` keeps its buffer and its key, whatever others do |
| `EndToEnd.RoundTrip` | src/crypter.c:42-100 | a successful encrypt then decrypt on one handle restores the buffer, for every length and interleaving, with DMA or INTERRUPT reconfigured in between |
| `Wakeups.NoLostWakeup` | drivers/cryptocard_mod.c:241-265 | with an atomic handler, and no start while an interrupt of the other mode is outstanding, every reachable state keeps a reason for each sleeper to be woken, whatever signals and stores there are |
| `Wakeups.SleeperHopes` | drivers/cryptocard_mod.c:396-400 | in those states a sleeper has a busy card, an interrupt owed or pending, or its wake-up |
| `Wakeups.HelpfulStep` | drivers/cryptocard_mod.c:397-400 | some event of the card, the handler or the sleeper is enabled and brings it nearer to leaving its wait |
| `Wakeups.WaitEnds` | drivers/cryptocard_mod.c:396-412 | from every such state a waiting or polling writer gets past its wait within seven events of the card, the handler and itself |
| `Fairness.AnyEvent` | drivers/cryptocard_mod.c:396-412 | no event but a signal that cuts its wait short takes a waiting client further from leaving it, or out of it without the operation done |
| `Fairness.HelpfulBudget` | drivers/cryptocard_mod.c:396-412 | over any stretch of any paced run in which a client waits, the helpful events that occur and the distance left add up to at most the distance at the start, which is at most seven; the next helpful event is enabled |
| `Fairness.FairWaitEnds` | drivers/cryptocard_mod.c:396-412 | in every infinite paced schedule that does not for ever pass over an event which stays enabled, every wait ends, with the operation done unless a signal cuts it short |
| `Liveness.HolderLeaves` | drivers/cryptocard_mod.c:374-479 | in such a schedule whoever holds the semaphore gives it back |
| `Liveness.CallReturns` | src/crypter.c:42-100 | if moreover the semaphore does not pass over for ever a client that may take it again and again, every library call returns |
| `Success.SucceedsExactly` | src/crypter.c:42-100 | in every run a call returns 0 exactly if none of its own statements has failed, and ERROR otherwise |
| `Success.NothingFails` | src/crypter.c:42-100 | a call returns 0 if the card lives, an unmapped caller has bytes to write and a mapped one is not set to DMA, and the environment fails none of its statements |
| `Success.CallSucceeds` | src/crypter.c:42-100 | total correctness: in a fair schedule such a call comes to its end and returns 0; undisturbed, the caller has the chunk-wise cipher of its own bytes, and a mapped caller's unspoilt window its passes |
| `Mixing.NeverDead` | drivers/cryptocard_mod.c:396-400 | while a client waits for an operation started with nothing of the other mode outstanding, its wake-up is not lost |
| `Mixing.LostExactly` | drivers/cryptocard_mod.c:252-262 | in every state of every run with the handler idle: the writer that starts an interrupt-driven operation can come to sleep on it for ever, with an uninterrupted handler, exactly if an interrupt of the other mode is to come, owed or pending at that moment |
| `Splitting.NeverLost` | drivers/cryptocard_mod.c:251-264 | with its interrupt alone on the way, but for one of the other mode that the handler has read, a waiting client is not left asleep, wherever the handler is interrupted |
| `Splitting.SplitExactly` | drivers/cryptocard_mod.c:251-264 | in every state of every run: with a handler that may be interrupted, the writer that starts an interrupt-driven operation can come to sleep on it for ever exactly if an interrupt of the other mode is to come, any is owed, one of its own mode is pending, or one of the other is pending that the handler has not read |
| `Wakeups.DeadStays` | drivers/cryptocard_mod.c:397-400 | a sleeper with an idle card and nothing pending stays so under every event but a signal to itself |
| `Wakeups.DeadForever` | drivers/cryptocard_mod.c:397-400 | so a lost wake-up is for ever, with the semaphore held |
| `Probe.Complement` | drivers/cryptocard_mod.c:514-521 | with a card that stores the complement, the two-step test says "not live" exactly for a dead card |
| `Probe.ProbeRun` | drivers/cryptocard_mod.c:514-521 | in every run the `live` register only ever holds its first value or the answer to the one constant all callers write |
| `Probe.ProbeVerdict` | drivers/cryptocard_mod.c:355-358 | so with any number of unlocked probes under way each goes on exactly when the card is alive, and else ends in ERROR |
| `Mapped.AimsStep` | drivers/cryptocard_mod.c:380-421 | every step that does not spoil the window keeps the remaining passes of a mapped call on course |
| `Mapped.CalmIsAlone` | drivers/cryptocard_mod.c:380-421 | in a run without interrupted waits there is no forgotten operation, so a caller without other users of the window bears everything |
| `Mapped.MappedEffect` | src/crypter.c:55-65 | a mapped call that returns 0, its window not spoilt, has passed over the start of the window once per write |
| `Mapped.MappedRoundTrip` | src/crypter.c:55-98 | with a byte-by-byte cipher and the window not spoilt, mapped encrypt then decrypt restore all of it, for every length |
| `Mapped.MappedRoundTripWhole` | src/crypter.c:55-98 | the same for every good cipher if the call is one write or whole chunks only |
| `Spoiling.SpoiltExactly` | src/crypter.c:55-65 | for one good card and every run: if at most one event of a mapped call that returns 0 can spoil the window (a store of another byte, another's message, a forgotten operation), the window is what the passes make of it exactly if that event does not |
| `Windows.SinglePass` | drivers/cryptocard_mod.c:380-395 | for at most 32768 bytes a mapped call is the cipher of the window |
| `Windows.PassesFrame` | src/crypter.c:58-65 | a mapped call of any length changes nothing beyond the first 32768 bytes |
| `Windows.WholeChunksUndone` | src/crypter.c:58-65 | with any cipher the window comes back if the call was one write or whole chunks |
| `Windows.PassesAt` | src/crypter.c:58-65 | a byte goes through a byte-by-byte cipher once per write that reaches it |
| `Windows.ByteWiseUndone` | src/crypter.c:58-98 | then decrypting undoes encrypting, whatever the length |
| `Windows.LongMappedCallNotUndone` | src/crypter.c:58-98 | a reversing cipher and a length of one chunk and two bytes: the window does not come back |
| `Witness.SharedHandle` | drivers/cryptocard_mod.c:361-372 | a reachable run: two writes in flight on one handle, and a successful caller gets the other's bytes |
| `Witness.StoreIntoWindow` | drivers/cryptocard_mod.c:383-395 | a reachable run: a mapped process stores into the window during an MMIO write |
| `Witness.StoreUnderMapped` | drivers/cryptocard_mod.c:380-395 | a reachable run: a store in the course of a mapped call, which succeeds and leaves the cipher of the stored byte |
| `Witness.InterruptedDma` | drivers/cryptocard_mod.c:448-451 | a reachable run: after an interrupted DMA wait the semaphore is free while the card works on a freed, still mapped buffer |
| `Witness.InterruptedWait` | drivers/cryptocard_mod.c:397-400 | a reachable run: after an interrupted MMIO wait the next caller's successful call returns its bytes enciphered twice |
| `Witness.InheritedMemory` | drivers/cryptocard_mod.c:364 | a reachable run: the next caller is given the memory an interrupted DMA wait has left to the card, and its own successful call, untouched in the window, returns its byte enciphered twice |
| `Witness.MixedModes` | drivers/cryptocard_mod.c:252-262 | a reachable run: interrupts of both modes merge into 0x101, nobody is woken, a writer sleeps for ever holding the card |
| `Witness.SplitHandler` | drivers/cryptocard_mod.c:251-262 | a reachable run: an operation finishing between the handler's wake-up and its acknowledgement loses the wake-up |
| `Counter.CounterIsGood` | src/crypter.c:58-98 | a card that counts its full chunks on an eight-byte counter keeps lengths and decrypts what it encrypted |
| `Counter.NotUndone` | src/crypter.c:58-98 | a mapped call of full chunks and a shorter rest leaves the window of such a card changed |
| `Counter.UndoneExactly` | src/crypter.c:58-98 | for every length below 2^64: every good card, key and window comes back exactly if the length is at most 32768 or a multiple of it |
| `Bar.DecodeEncode` | drivers/cryptocard_mod.c:379-395 | little-endian bytes read back as the word that was written, if it fits |
| `Bar.Disjoint` | drivers/cryptocard_mod.c:523-549 | no two registers share a byte and all lie below the window |
| `Bar.Layout` | drivers/cryptocard_mod.c:523-549 | each register is the little-endian word at the bytes `setup_configspace` names, and the window the bytes from 0xA8 on |
| `Bar.MessageFits` | drivers/cryptocard_mod.c:547-548 | a message of at most 32768 bytes lies within the window |
| `Bar.GetPut` | drivers/cryptocard_mod.c:523-549 | a register write is read back and leaves every other register as it was |
| `Bar.PutKeepsWindow` | drivers/cryptocard_mod.c:383-395 | register writes leave the window alone |
| `Bar.WindowKeepsRegs` | drivers/cryptocard_mod.c:383-395 | a message leaves every register alone |
| `Bar.LowByte` | drivers/cryptocard_mod.c:397-412 | `ioread8` sees bit 0 of the whole register |
| `Bar.Bytes.Store` | drivers/cryptocard_mod.c:379-395 | the byte-wise store writes exactly the encoded bytes in place |
| `Bar.Bytes.Write` | drivers/cryptocard_mod.c:379-461 | on the bytes of the BAR a register write is the update of one field of the register file |
| `Bar.Bytes.Read` | drivers/cryptocard_mod.c:514-521 | and a register read yields that field |
| `Bar.Bytes.Read8` | drivers/cryptocard_mod.c:397-412 | `ioread8` yields its lowest bit |
| `Bar.Bytes.Fetch` | drivers/cryptocard_mod.c:416 | `memcpy_fromio` yields the start of the window |
| `Bar.Bytes.Load` | drivers/cryptocard_mod.c:383-385 | and `memcpy_toio` of a message the update of the window alone |
| `Driver.Words` | drivers/cryptocard_mod.c:386-411 | the words written to `status` and `cmd` are read by the card as the asked direction, and as started or not |
| `Driver.ZeroExactly` | drivers/cryptocard_mod.c:336-477 | a write returns 0 exactly if the card lives, there is a buffer if one is needed, nothing cannot be copied or mapped, and no signal comes at the semaphore or at a test of the wait that the card has not satisfied |
| `Driver.ErrorsExactly` | drivers/cryptocard_mod.c:346-485 | each errno is returned exactly if its statement is the first to fail, and no other value ever |
| `Driver.WrittenBytes` | drivers/cryptocard_mod.c:364-470 | what a write leaves in the caller's memory: its own bytes enciphered after a 0, a prefix of the cipher after a short copy-out, nothing changed after any other error |
| `Driver.CardDriver.IsNotLive` | drivers/cryptocard_mod.c:514-521 | true exactly for a dead card; only the `live` register changes |
| `Driver.CardDriver.AwaitMmio` | drivers/cryptocard_mod.c:397-412 | polling or waiting ends with the card finished, unless a signal is pending at a test it has not yet satisfied |
| `Driver.CardDriver.AwaitDma` | drivers/cryptocard_mod.c:448-463 | the same for an operation on a buffer in memory |
| `Driver.CardDriver.Mmio` | drivers/cryptocard_mod.c:380-414 | MMIO, polled or by interrupt, leaves the cipher of the message at the start of the window |
| `Driver.CardDriver.Dma` | drivers/cryptocard_mod.c:432-463 | DMA, polled or by interrupt, leaves the cipher of the kernel buffer in it |
| `Driver.CardDriver.MmioBranch` | drivers/cryptocard_mod.c:380-421 | the MMIO branch with its copy-out |
| `Driver.CardDriver.DmaBranch` | drivers/cryptocard_mod.c:422-471 | the DMA branch with mapping, unmapping and copy-out |
| `Driver.CardDriver.Section` | drivers/cryptocard_mod.c:374-479 | between down and up both branches meet one specification in which the transfer mode plays no part; the semaphore comes back |
| `Driver.CardDriver.WithBuffer` | drivers/cryptocard_mod.c:362-485 | from allocation to free, every exit clears the buffer name |
| `Driver.CardDriver.PciWrite` | drivers/cryptocard_mod.c:336-486 | `pci_write` as a whole, on the bytes of the BAR: its return value; after a 0 the caller's own bytes, or a mapped caller's window, replaced by their cipher and nothing else changed, and the card at rest; after a wait cut short the operation the card will still carry out; the same in all four modes |
| `Chunks.ProcessedStep` | src/crypter.c:58-65 | one successful write takes the buffer exactly one chunk further |
| `Chunks.ChunkedInverse` | src/crypter.c:58-98 | chunk-wise decryption undoes chunk-wise encryption |
| `Chunks.ChunkedAt` | src/crypter.c:58-65 | the i-th 32768 bytes of a buffer, or what is left of them, go through the cipher on their own |
| `Chunks.ProcessedInverse` | src/crypter.c:58-98 | so does a whole call on the first bytes of a buffer |
| `Crypter.TilesCover` | src/crypter.c:58-65 | the writes of a call are consecutive, disjoint, at most 32768 bytes, and cover the buffer |
| `Crypter.WriteChunk` | src/crypter.c:59-64 | one write of a call: its verdict, and the memory and window after it |
| `Crypter.WriteLoop` | src/crypter.c:58-66 | the loop issues a prefix of the tiles; it returns 0 exactly when every write does, and stops with ERROR at the first that does not; the caller's memory and the window after it, in both cases |
| `Crypter.Encrypt` | src/crypter.c:42-67 | two ioctls, then the loop; a failed ioctl writes nothing. After a 0 an unmapped caller's bytes are the chunk-wise encryption of the old ones under the handle's key, a mapped caller's window has had its passes, and the handle is set so; a call in which nothing fails returns 0 |
| `Crypter.Decrypt` | src/crypter.c:76-100 | the same in the other direction |
| `Crypter.ThereAndBack` | src/crypter.c:42-100 | `encrypt` and then `decrypt`: if both return 0 the caller has its old bytes, and both do if nothing fails |
| `Crypter.ThereAndBackMapped` | src/crypter.c:42-100 | the same on the window of a mapped caller, for one write or whole chunks |
| `Crypter.KeyBytes` | src/crypter.c:110-112 | shifting by eight and or-ing gives `a*256+b` |
| `Crypter.SetKey` | src/crypter.c:108-116 | `set_key` on the record in place: 0 and the key `a*256+b`, or ERROR and no change |
| `Crypter.SetConfig` | src/crypter.c:124-138 | `set_config` on the record in place: 0 and the one field it sets, or ERROR and no change |
| `Crypter.MemoryAfter` | src/crypter.c:58-65 | after n successful writes exactly the first n chunks have been through the cipher |
| `Crypter.WindowAfter` | src/crypter.c:58-65 | after n successful mapped writes the window is n passes on its way |
| `Crypter.CallDone` | src/crypter.c:58-66 | a call returns 0 exactly when all `max(1, ceil(length/32768))` writes do, and then all of it is done |
| `Crypter.CallFailed` | src/crypter.c:61-63 | otherwise ERROR with the chunks before the failed write done, those after it untouched, and its own untouched if it had not begun to copy out |
| `Crypter.EmptyCall` | src/crypter.c:58-67 | an unmapped call for 0 bytes issues one write and ends in ERROR |
| `Crypter.CallsInverse` | src/crypter.c:42-100 | a decrypt call undoes an encrypt call under the same key, whatever the two transfer modes |
| `Vmalloc64.Kernel.Lower` | bechmark-test/Demo/part1/rsvd/fault.c:466-484 | the walk below the top level returns 0 exactly when pud or pmd is huge or the page-table entry is present |
| `Vmalloc64.Kernel.VmallocFault` | bechmark-test/Demo/part1/rsvd/fault.c:418-485 | with four and with five levels: 0 exactly when the address is in the area, the process's entry does not conflict, and the reference's chain of entries ends in a page; the process's own chain then ends in the same page at the same level |
| `Vmalloc64.WalkKept` | bechmark-test/Demo/part1/rsvd/fault.c:418-485 | a walk does not see changes at or above the level it starts from |
| `Vmalloc64.ChainExactly` | bechmark-test/Demo/part1/rsvd/fault.c:418-485 | the hardware walk ends in a page exactly if, by nine bits of the address a level, its entries lead to a huge pud, a huge pmd or a present page-table entry |
| `Vmalloc64.InvStep` | bechmark-test/Demo/part1/rsvd/fault.c:433-462 | every event keeps each process's kernel entries empty or equal to the reference and fires no BUG_ON |
| `Vmalloc64.ReferenceAgreement` | bechmark-test/Demo/part1/rsvd/fault.c:433-462 | that in every reachable state |
| `Vmalloc64.FaultResolves` | bechmark-test/Demo/part1/rsvd/fault.c:418-485 | in every reachable state the fault returns 0 exactly when the address is in the area and the reference maps it; the process's own walk then ends where the reference walk does |
| `Vmalloc64.FaultFollowsChain` | bechmark-test/Demo/part1/rsvd/fault.c:418-485 | the same entry by entry, huge pages included: in every reachable state 0 exactly where the reference leads to a page, and -1 elsewhere |
| `Vmalloc64.FaultFrame` | bechmark-test/Demo/part1/rsvd/fault.c:442-462 | a fault touches one entry at most, and only an empty one |
| `Vmalloc64.FilledStays` | bechmark-test/Demo/part1/rsvd/fault.c:433-462 | a kernel entry once filled in is never changed again |
| `Vmalloc64.OneFaultIsEnough` | bechmark-test/Demo/part1/rsvd/fault.c:418-485 | from then on the process's walks under that entry agree with the reference, whatever changes below |
| `Vmalloc64.ReplacedEntryBugs` | bechmark-test/Demo/part1/rsvd/fault.c:446-461 | why the reference may only gain entries: replacing one that a process has copied makes its next fault a BUG |
| `Vmalloc32.SetAt` | bechmark-test/Demo/part1/rsvd/fault.c:262-270 | storing a middle-level entry changes that one and no other of any process, with or without PAE |
| `Vmalloc32.Memory.VmallocSyncOne` | bechmark-test/Demo/part1/rsvd/fault.c:233-273 | NULL on the reference's account alone, BUG on a conflict, else the entry is the reference's |
| `Vmalloc32.Visited` | bechmark-test/Demo/part1/rsvd/fault.c:288-301 | a table visited in the loop; NULL means the reference has nothing there for any table, so the break is sound |
| `Vmalloc32.Stride` | bechmark-test/Demo/part1/rsvd/fault.c:282-284 | each pass moves one entry on, also when `address` wraps to 0 |
| `Vmalloc32.LoopOver` | bechmark-test/Demo/part1/rsvd/fault.c:282-284 | when the loop guard fails no entry of the range is left |
| `Vmalloc32.Memory.SyncRow` | bechmark-test/Demo/part1/rsvd/fault.c:288-301 | the walk over the list for one address brings that entry of every table in line, or meets a conflict that was there before |
| `Vmalloc32.Memory.VmallocSyncAll` | bechmark-test/Demo/part1/rsvd/fault.c:275-304 | unless the middle level is shared: it ends; for every listed table and every address from VMALLOC_START up to FIXADDR_TOP at which the reference has an entry, so has the table, for the same page; nothing else has changed; a BUG fires exactly if at an address visited some listed table had another page before |
| `Vmalloc32.SyncedTwice` | bechmark-test/Demo/part1/rsvd/fault.c:275-304 | afterwards there is no conflict, and synchronising again changes nothing |
| `Vmalloc32.KeptByAddress` | bechmark-test/Demo/part1/rsvd/fault.c:275-304 | an entry is left as it was if its table is not listed, the loop does not come by its address, it was there already, or the reference has none |
| `Vmalloc32.AtAddress` | bechmark-test/Demo/part1/rsvd/fault.c:235-266 | the entries of the walk are those the hardware finds for the address |
| `Vmalloc32.Memory.VmallocFault` | bechmark-test/Demo/part1/rsvd/fault.c:311-341 | 0 exactly when the address is in the area and the reference maps it by a large page or down to a present last-level entry; the process then has an entry for the same page; a BUG exactly when it had another |
| `Prefetch.Halves` | bechmark-test/Demo/part1/rsvd/fault.c:79-110 | the tests on the halves of a byte single out exactly the legacy and REX prefixes |
| `Prefetch.CheckPrefetchOpcode` | bechmark-test/Demo/part1/rsvd/fault.c:75-120 | go on exactly after a prefix; after 0F decide by the next readable byte |
| `Prefetch.Decided` | bechmark-test/Demo/part1/rsvd/fault.c:142-152 | the first byte that is no prefix decides: no other split of the bytes can work |
| `Prefetch.PrefetchExactly` | bechmark-test/Demo/part1/rsvd/fault.c:60-154 | a prefetch is there exactly if up to fourteen of the listed prefixes, REX only in 64-bit code, then 0F, then 0D or 18 can be read |
| `Prefetch.TooLong` | bechmark-test/Demo/part1/rsvd/fault.c:137-142 | fifteen prefixes leave no room for the instruction |
| `Prefetch.ScanPrefetch` | bechmark-test/Demo/part1/rsvd/fault.c:122-154 | true exactly when the fault is no instruction fetch, the address check passes, the 15-byte window does not wrap, and the bytes of a prefetch can be read there |
| `PageFault.HandleMmFault` | bechmark-test/Demo/part1/rsvd/fault.c:1407-1423 | the callee's contract: on RETRY it has given `mmap_sem` back |
| `PageFault.TryArea` | bechmark-test/Demo/part1/rsvd/fault.c:1369-1423 | from `find_vma` on, `handle_mm_fault` is reached exactly if the area covers the address and allows the access; a bad area gives the lock back inside `__bad_area` |
| `PageFault.HandledExactly` | bechmark-test/Demo/part1/rsvd/fault.c:1145-1181 | covered: found below the address, or a stack that may be grown down to it; allowed: no protection key, permitted, and writable for a write, or for a read of an absent page readable, executable or writable |
| `PageFault.UnderLock` | bechmark-test/Demo/part1/rsvd/fault.c:1358-1468 | with the lock held: at most two calls of `handle_mm_fault`, the second with ALLOW_RETRY cleared and TRIED set; the lock is free at every exit |
| `PageFault.EndsEarly` | bechmark-test/Demo/part1/rsvd/fault.c:1234-1311 | exactly which faults end without a look at the address space, and how: `pgtable_bad` exactly for a user-space reserved-bit fault whose hook is missing or refuses it, the reference lookup exactly for an absent kernel page |
| `PageFault.BeforeLock` | bechmark-test/Demo/part1/rsvd/fault.c:1234-1311 | the exits before the lock settle exactly the faults that must not touch it, and as the whole handler has it |
| `PageFault.EndsLate` | bechmark-test/Demo/part1/rsvd/fault.c:1352-1468 | exactly how a fault ends that takes the lock, by what its deciding attempt found and reported |
| `PageFault.Settle` | bechmark-test/Demo/part1/rsvd/fault.c:1428-1465 | after the last attempt the lock is free or is given back, with the outcome the report calls for |
| `PageFault.TakeLock` | bechmark-test/Demo/part1/rsvd/fault.c:1352-1367 | the trylock, and the way round it for stray kernel faults |
| `PageFault.Task.DoPageFault` | bechmark-test/Demo/part1/rsvd/fault.c:1218-1468 | every path: the lock taken only when free, held at each `find_vma` and `handle_mm_fault`, released once; `mmap_sem` not touched exactly for kernel addresses, reserved bits and faults that must not sleep; outcome and counters; no access is ever handled or counted that the last area found does not allow |
| `PageFault.AccountedExactly` | bechmark-test/Demo/part1/rsvd/fault.c:1422-1465 | a fault is counted exactly when its last attempt settled it, as major exactly when some attempt, even a retried one, reported it |
| `PageFault.AccountingAddsUp` | bechmark-test/Demo/part1/rsvd/fault.c:1459-1465 | over any sequence of faults `maj_flt + min_flt` grows by the faults accounted for, `maj_flt` by the major ones |
| `ReservedBit.SetMark` | bechmark-test/Demo/part1/rsvd/btplus.c:135 | or-ing bit 50 into a word sets it and leaves the other 63 bits alone |
| `ReservedBit.ClearMark` | bechmark-test/Demo/part1/rsvd/btplus.c:38 | and-ing it away clears it and leaves the others alone |
| `ReservedBit.WordBits` | bechmark-test/Demo/part1/rsvd/btplus.c:35-137 | arming sets bit 50 of the word, disarming clears it, the other 63 bits stay; the hardware tests bits 50 and 0 |
| `ReservedBit.ReadArms` | bechmark-test/Demo/part1/rsvd/btplus.c:121-137 | reading arms the entry of the page written last, by its page number, or uses a null entry |
| `ReservedBit.CloseDisarms` | bechmark-test/Demo/part1/rsvd/btplus.c:57-67 | closing takes the hook away and clears bit 50 of the tracked entry, or uses a null entry |
| `ReservedBit.TripsExactly` | bechmark-test/Demo/part1/rsvd/btplus.c:35-43 | an access faults exactly on a present entry with bit 50 set |
| `ReservedBit.FaultClears` | bechmark-test/Demo/part1/rsvd/btplus.c:35-43 | the hook clears bit 50 of the tracked entry exactly if the faulting page is that of the pointer; otherwise the fault ends in `pgtable_bad` |
| `ReservedBit.WordLawful` | bechmark-test/Demo/part1/rsvd/btplus.c:35-137 | the source's operations on words obey all the laws the other proofs use |
| `ReservedBit.OnlyTheMark` | bechmark-test/Demo/part1/rsvd/btplus.c:35-137 | in every run whatever, the tables but for bit 50 are what some of the run's accesses alone make of them |
| `ReservedBit.Invisible` | bechmark-test/Demo/part1/rsvd/btplus.c:35-147 | over every careful run of any number of sessions, each access tried again after a fault, the tables but for bit 50 are what all its accesses alone make of them, with at most one fault for each arming |
| `ReservedBit.NothingLeft` | bechmark-test/Demo/part1/rsvd/btplus.c:57-67 | with nothing armed at the end there is no difference in any bit |
| `ReservedBit.MarkMoves` | bechmark-test/Demo/part1/rsvd/btplus.c:35-67 | bit 50 of a page is set by arming, cleared by the first fault or by closing, and moved by nothing else |
| `ReservedBit.OneFaultPerArming` | bechmark-test/Demo/part1/rsvd/btplus.c:35-137 | over every careful run at most one reserved-bit fault for each arming, and none ends in `pgtable_bad` |
| `ReservedBit.ResolvesExactly` | bechmark-test/Demo/part1/rsvd/fault.c:1289-1293 | the hook resolves a fault exactly when it points at the page that faulted |
| `ReservedBit.GoesThrough` | bechmark-test/Demo/part1/rsvd/btplus.c:35-43 | after a reserved-bit fault the access goes through exactly if the hook is set and both `gpte` and `gptr` speak of the page that faulted |
| `ReservedBit.GoesThroughAtLast` | bechmark-test/Demo/part1/rsvd/btplus.c:35-43 | the same however often it is tried |
| `ReservedBit.KeepsFaulting` | bechmark-test/Demo/part1/rsvd/fault.c:1289-1293 | otherwise each attempt is one more fault, ending in `pgtable_bad` exactly unless the hook takes the page for its own |
| `ReservedBit.MarksBetweenUses` | bechmark-test/Demo/part1/rsvd/btplus.c:35-43 | between two uses of the device, whatever is accessed, the only mark that goes is that of `gpte`, exactly if the page `gptr` points to is visited while it trips |
| `ReservedBit.Demo.FaultHook` | bechmark-test/Demo/part1/rsvd/btplus.c:35-43 | the hook clears the mark of `gpte` and returns 0 exactly for a fault on the tracked page |
| `ReservedBit.Demo.DemoRead` | bechmark-test/Demo/part1/rsvd/btplus.c:121-137 | reading arms the page written last, or uses a null entry |
| `ReservedBit.Demo.DemoRelease` | bechmark-test/Demo/part1/rsvd/btplus.c:57-67 | closing removes the hook and the mark |
| `ReservedBit.Demo.Attempt` | bechmark-test/Demo/part1/rsvd/fault.c:1289-1293 | one attempt of an access, with the handler's reserved-bit branch |
| `ReservedBit.Touched` | bechmark-test/Demo/part1/rsvd/btplus.c:35-43 | one more access of a session: a fault if it is the first to reach the page, then it goes through |
| `ReservedBit.Demo.Session` | bechmark-test/Demo/part1/rsvd/btplus.c:35-147 | open, write, read, any accesses, close: the tables are what the accesses alone make of them, one fault if any access reached the page, none otherwise |
| `ReservedBit.CrashedExactly` | bechmark-test/Demo/part1/rsvd/btplus.c:57-67 | over every run of a newly loaded module a null `gpte` is used exactly if a page without an entry is read for, or the device is closed before it has ever been read |
| `ReservedBit.SecondWrite` | bechmark-test/Demo/part1/rsvd/btplus.c:139-148 | a second write while armed: the next fault ends in `pgtable_bad` |
| `ReservedBit.ClosedByAnother` | bechmark-test/Demo/part1/rsvd/btplus.c:57-67 | two users: when one closes, the other's arming is left without a hook |
| `ReservedBit.FaultsForEver` | bechmark-test/Demo/part1/rsvd/btplus.c:35-43 | two pages armed and the pointer moved back: the hook clears the wrong entry and the access faults for ever |

## Left out

- cryptocard_probe, cryptocard_remove, module registration, `pci_mmap` and `map_card`/`unmap_card`: kernel plumbing and fixed unwinding.
- The ENOMEM exits of `pci_open`, `pci_write` and `pci_unlocked_ioctl` for a missing record or card: a handle without a record does nothing.
- The card's real cipher and timing, and interrupt sharing with other devices: not in the repository.
- Direct `write` calls longer than 32768 bytes: the library never issues them.
- Driver.CardDriver.PciWrite: a caller without competitors, so the semaphore is never waited for and the card runs inside the waits; competitors are the subject of `Machine`. After a wait that was cut short it says what the card is left to do (`Leaves`), not when the card does it. The liveness register is not part of what it promises. `copy_from_user` and `copy_to_user` move a sequence at once.
- Crypter.WriteLoop: after a wait that was cut short the window is described as it is when the call returns, before the card's last pass. `encrypt` and `decrypt` share the loop as a helper, where the source repeats it.
- Crypter.SetKey: the word is formed with arithmetic; that this is the shift and or is the separate lemma `KeyBytes`.
- Ioctl.LibraryConfiguration: a stray value of `set_config` is the separate lemma `StrayConfigValue`.
- Wakeups.WaitEnds: says that at most seven events suffice from any state; that every fair schedule gets there is `Fairness.HelpfulBudget` and `Fairness.FairWaitEnds`.
- Windows.WholeChunksUndone: is one direction only; that no other length will do for every good card is `Counter.UndoneExactly`.
- Windows.LongMappedCallNotUndone: is one simple card and one length; all lengths are in `Counter.UndoneExactly`.
- Ioctl.Configuration: speaks of the record alone; handles inside the running driver are the subject of `Settings`.
- Handover.IdleHandOver: is about calm runs; mappings in all runs are the subject of `Mappings`.
- Vmalloc64.Kernel.VmallocFault: huge p4d entries, `WARN_ON_ONCE(in_nmi())`, lazy MMU flushing and races between two processors inside one fault are not modelled. The 64-bit `vmalloc_sync_all` is one event per entry.
- Vmalloc32.Memory.VmallocSyncAll: `pgd_lock` and `page_table_lock` are not modelled; the tables do not change under the loop.
- PageFault.Task.DoPageFault: oops, signal delivery, tracing, `mm_fault_error`, errata checks and `spurious_fault` are outcomes or parameters that touch neither the lock nor the counters. The gotos and early returns are methods of their own, which end where the source returns.
- Prefetch.ScanPrefetch: `convert_ip_to_linear` is taken as done; readability of memory does not change during the scan.
- Hazards.HazardExactly: that nothing else does harm holds for every good card (`Borne`); that each of the three can do harm is shown with one card, since a card that leaves the bytes in question alone does none.
- Mixing.LostExactly: supposes the handler uninterrupted from the start on; the handler that may be interrupted is the subject of `Splitting.SplitExactly`.
- Spoiling.SpoiltExactly: speaks of runs with at most one spoiling event, since two may cancel each other, and of one card, since a card that leaves the bytes in question alone does no harm.
- Buffers.Distinct: two writes in flight on one handle are shown to go wrong by one run, `Witness.SharedHandle`; when exactly they do is not part of this model.
- Isolation.Inherits: freed memory under a running operation is handed out again as the start of one new buffer at a time, not in the middle of one or across two, and not to other parts of the kernel.
- PageFault.HandleMmFault: what the callee does is its contract on the lock and the flags; the fault's own work is not modelled.
- ReservedBit.OnlyTheMark: which accesses complete in a run that is not careful is not part of it; that is `GoesThroughAtLast` and `MarksBetweenUses`.
- ReservedBit.Demo.Session: demand paging and other processes' page-table changes during a session are not modelled; an access to an entry that is not present does nothing. TLB flushing, `stac`/`clac`, the char-device registration and the print statements are left out, and so are the two other copies of btplus.c without a hook.
- `check_v8086_mode`, `dump_pagetable`, `is_errata93`, `is_errata100`, `is_f00f_bug`: printing, or verdicts for processors long gone.
- The programs under `bechmark-test/`, `test-cases/`, `mmap.c`, and the small demos (`hello_tic.c`, `pci_driver/`, `mem_tracker.c`, `hello.c`): clients only, or no logic to speak of.
