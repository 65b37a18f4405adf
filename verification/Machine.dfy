/**
 * The CryptoCard driver as a state machine. Any number of clients, each a thread that
 * calls the library on one handle, share one card, one semaphore, one wait queue and one
 * interrupt handler. A step is one event; `Next` is the effect of the event.
 */
module Machine {
  import opened Types
  import Ioctl

  datatype LibPC = IoEncrypt | IoMmap | LoopTop
  datatype PrePC = Entry | ProbeWrite | ProbeRead | Alloc | CopyIn | Down
  datatype MmioPC = LoadKey | MLen | MData | MStatus | MStart | MPoll | MOut | MUser
  datatype DmaPC = DMap | DAddr | DLen | DCmd | DPoll | DUnmap | DUser
  datatype WaitPC = First | Enqueue | Check | Sleep

  /** Where a client is: between calls, in the library, or in `pci_write`. */
  datatype PC =
    | Idle
    | Lib(lib: LibPC)
    | Pre(pre: PrePC)      // pci_write before the semaphore
    | Mmio(mmio: MmioPC)   // holding it: keys, then memory-mapped I/O
    | Dma(dma: DmaPC)
    | Wait(wait: WaitPC)   // wait_event_interruptible
    | Up(ok: bool)         // about to release it
    | Free(ok: bool)

  /** The library's locals: direction, whether the address is mapped, address, count, length, result. */
  datatype Loop = Loop(enc: bool, mapped: bool, off: nat, len: nat, rem: nat, ret: int)

  /**
   * A client. `user` is the caller's buffer; `err` and `dma` are locals of `pci_write`;
   * `queued` and `woken` are its entry in the wait queue. `downs` and `ups` count
   * semaphore operations.
   */
  datatype Client = Client(
    h: nat, user: seq<Byte>, pc: PC, l: Loop,
    err: int, dma: int, queued: bool, woken: bool, downs: nat, ups: nat)

  /** An operation the card is carrying out; `done` once the bytes are replaced. */
  datatype Op = Op(isE: bool, key: nat, len: nat, irq: bool, buf: int, done: bool)

  /** The card's registers and window. Interrupts it has yet to raise are `owed`. */
  datatype Device = Device(
    live: bv32, keys: nat, lenMsg: nat, status: nat, istatus: bv32,
    addrOp: int, dlen: nat, cmd: nat, window: seq<Byte>,
    mmio: Option<Op>, dma: Option<Op>, owed: bv32)

  datatype Handler = Quiet | Woke(status: bv32) | Seen(status: bv32)

  datatype Shared = Shared(
    heap: map<int, seq<Byte>>, nextBuf: int, freed: seq<int>, mapped: set<int>,
    sem: int, dev: Device)

  /**
   * The whole system. A buffer's name stands for one allocation, not for an address. `heap`
   * holds the live kernel buffers, `nextBuf` the next buffer name,
   * `freed` the arguments of every `vfree` so far, `mapped` the buffers mapped for DMA.
   */
  datatype State = State(clients: seq<Client>, jobs: seq<Job>, g: Shared, irq: Handler)

  /** What one client's code can touch: itself, its handle's record and the shared part. */
  datatype View = View(c: Client, j: Job, g: Shared)

  /** Outcome of a step that can go more than one way; `Reuse` is an allocation that gets memory back. */
  datatype Choice = Ok | Fail(copied: nat) | Signal | Reuse

  /** `encrypt`/`decrypt`, `set_key`, `set_config`, or the caller refilling its buffer. */
  datatype UserEvent =
    | Call(enc: bool, mapped: bool, length: nat)
    | SetKey(a: Byte, b: Byte, readable: bool)
    | SetConfig(kind: Ioctl.Kind, value: Byte, readable: bool)
    | Fill(data: seq<Byte>)

  /** `Poke` is a store through a mapping of the window; the rest is the card's own. */
  datatype CardEvent = Poke(at: nat, value: Byte) | Transform(dma: bool) | Finish(dma: bool) | Raise

  /** The handler's read, wake-up and acknowledgement, or the three as one step. */
  datatype IrqEvent = Read | Wake | Ack | Atomic

  /**
   * A client runs its next statement, makes a library call between statements, the card
   * or a mapped process acts, or the interrupt handler does.
   */
  datatype Event = Thread(t: nat, ch: Choice) | User(t: nat, u: UserEvent) | Hardware(e: CardEvent) | Irq(i: IrqEvent)

  const LIVE_PROBE: bv32 := 0x0fffffff
  const MMIO_DONE: bv32 := 0x001
  const DMA_DONE: bv32 := 0x100

  // ----- registers -----

  predicate Bit(v: nat, weight: nat)
    requires weight > 0
  {
    v / weight % 2 == 1
  }

  function SetBusy(v: nat): nat { if Bit(v, 1) then v else v + 1 }
  function ClearBusy(v: nat): nat { if Bit(v, 1) then v - 1 else v }

  /** A write to `data_addr`: the card decodes `status` and starts on the window. */
  function StartMmio(d: Device): Device {
    d.(status := SetBusy(d.status),
       mmio := Some(Op(!Bit(d.status, 2), d.keys, d.lenMsg, Bit(d.status, 0x80), 0, false)))
  }

  /** A write to `cmd`: with bit 0 set the card starts on the buffer named by `addr_op`. */
  function WriteCmd(d: Device, v: nat): Device {
    if Bit(v, 1)
    then d.(cmd := v, dma := Some(Op(!Bit(v, 2), d.keys, d.dlen, Bit(v, 4), d.addrOp, false)))
    else d.(cmd := v)
  }

  /** What the `live` register holds after a write: a live card stores the complement. */
  function Answer(k: Card, written: bv32): bv32 { if k.alive then 0xffffffff ^ written else written }

  /** The test of `is_not_live`. */
  predicate NotLive(live: bv32) { live & LIVE_PROBE != 0 }

  /** The condition that polling and waiting test. */
  predicate Ready(d: Device, isM: bool) {
    if isM then !Bit(d.status, 1) else !Bit(d.cmd, 1)
  }

  // ----- small updates -----

  function Go(v: View, pc: PC): View { v.(c := v.c.(pc := pc)) }

  function SetDev(v: View, d: Device): View { v.(g := v.g.(dev := d)) }

  /** The kernel buffer of a job, empty when there is none. */
  function Kernel(g: Shared, j: Job): seq<Byte> {
    if j.msg.Some? && j.msg.value in g.heap then g.heap[j.msg.value] else []
  }

  function PutKernel(v: View, data: seq<Byte>): View {
    if v.j.msg.Some? && v.j.msg.value in v.g.heap
    then v.(g := v.g.(heap := v.g.heap[v.j.msg.value := Blit(v.g.heap[v.j.msg.value], 0, data)]))
    else v
  }

  /** `write` came back with `r`: the library's loop goes on, ends or reports ERROR. */
  function Returned(c: Client, r: int): Client {
    if r != 0 then c.(pc := Idle, l := c.l.(ret := -1))
    else if c.l.rem > 0 then c.(pc := Lib(LoopTop), l := c.l.(off := c.l.off + c.l.len))
    else c.(pc := Idle, l := c.l.(off := c.l.off + c.l.len, ret := 0))
  }

  /** After a finished operation: copy out, or go straight up for a mapped caller. */
  function AfterOp(j: Job): PC {
    if !j.isM then Dma(DUnmap) else if j.isNotMM then Mmio(MOut) else Up(true)
  }

  // ----- the client's steps -----

  /** Between a successful `down` and its `up`. */
  predicate InSection(pc: PC) { pc.Mmio? || pc.Dma? || pc.Wait? || pc.Up? }

  /** The library after an ioctl that returned `r`. */
  function AfterIoctl(c: Client, r: int, next: LibPC): Client {
    if r != 0 then c.(pc := Idle, l := c.l.(ret := -1)) else c.(pc := Lib(next))
  }

  /** The two ioctls and the top of the do-while loop of `encrypt` and `decrypt`. */
  function LibraryStep(v: View, pc: LibPC, ch: Choice): View {
    match pc
    case IoEncrypt =>
      var (j, r) := Ioctl.Apply(v.j, Ioctl.SetEncrypt(if v.c.l.enc then Ioctl.ENCRYPT else Ioctl.DECRYPT), !ch.Fail?);
      View(AfterIoctl(v.c, r, IoMmap), j, v.g)
    case IoMmap =>
      var (j, r) := Ioctl.Apply(v.j, Ioctl.SetMmap(if v.c.l.mapped then Ioctl.MMAP else Ioctl.UNMMAP), !ch.Fail?);
      View(AfterIoctl(v.c, r, LoopTop), j, v.g)
    case LoopTop =>
      var count := Min(v.c.l.rem, CHUNK);
      v.(c := v.c.(pc := Pre(Entry), l := v.c.l.(len := count, rem := v.c.l.rem - count)))
  }

  function Zeros(n: nat): (s: seq<Byte>)
    ensures |s| == n
  {
    seq(n, _ => 0)
  }

  /** The card still works on memory that has been freed. */
  predicate Forgotten(g: Shared) { g.dev.dma.Some? && g.dev.dma.value.buf !in g.heap }

  /** `vmalloc` may hand that memory out again: the operation goes on, now on the new buffer. */
  function Inherited(g: Shared): Device {
    if Forgotten(g) then g.dev.(dma := Some(g.dev.dma.value.(buf := g.nextBuf))) else g.dev
  }

  /** `vmalloc` for an unmapped caller; it returns NULL for length 0. */
  function AllocStep(v: View, ch: Choice): View {
    if !v.j.isNotMM then Go(v, Pre(Down))
    else if v.c.l.len == 0 || ch.Fail? then View(Returned(v.c, ENOMEM), v.j.(msg := None), v.g)
    else
      View(v.c.(pc := Pre(CopyIn)), v.j.(msg := Some(v.g.nextBuf)),
           v.g.(heap := v.g.heap[v.g.nextBuf := Zeros(v.c.l.len)], nextBuf := v.g.nextBuf + 1,
                dev := if ch.Reuse? then Inherited(v.g) else v.g.dev))
  }

  /** From the entry of `pci_write` to the semaphore. */
  function EntryStep(k: Card, v: View, pc: PrePC, ch: Choice): View {
    match pc
    case Entry =>
      v.(c := if !v.j.isNotMM && !v.j.isM then Returned(v.c, EINVAL) else v.c.(pc := Pre(ProbeWrite)))
    case ProbeWrite => Go(SetDev(v, v.g.dev.(live := Answer(k, LIVE_PROBE))), Pre(ProbeRead))
    case ProbeRead => v.(c := if NotLive(v.g.dev.live) then Returned(v.c, ENODEV) else v.c.(pc := Pre(Alloc)))
    case Alloc => AllocStep(v.(j := v.j.(len := v.c.l.len)), ch)
    case CopyIn =>
      if ch.Fail? then v.(c := v.c.(pc := Free(false), err := EAGAIN))
      else Go(PutKernel(v, Take(v.c.user[Min(v.c.l.off, |v.c.user|)..], v.j.len)), Pre(Down))
    case Down =>
      if ch.Signal? then v.(c := v.c.(pc := Free(false), err := ERESTARTSYS))
      else v.(c := v.c.(pc := Mmio(LoadKey), err := -1, downs := v.c.downs + 1), g := v.g.(sem := v.g.sem - 1))
  }

  /** `copy_to_user`: all bytes, or only the first `copied` of them and an error. */
  function CopyOut(c: Client, data: seq<Byte>, ch: Choice): Client {
    if ch.Fail? then c.(pc := Up(false), err := EAGAIN, user := Blit(c.user, c.l.off, Take(data, ch.copied)))
    else c.(pc := Up(true), user := Blit(c.user, c.l.off, data))
  }

  /** Keys, then the memory-mapped branch up to its copy to the caller. */
  function MmioStep(v: View, pc: MmioPC, ch: Choice): View {
    var d := v.g.dev;
    match pc
    case LoadKey => Go(SetDev(v, d.(keys := v.j.keyab)), if v.j.isM then Mmio(MLen) else Dma(DMap))
    case MLen => Go(SetDev(v, d.(lenMsg := v.j.len)), Mmio(if v.j.isNotMM then MData else MStatus))
    case MData => Go(SetDev(v, d.(window := Blit(d.window, 0, Take(Kernel(v.g, v.j), v.j.len)))), Mmio(MStatus))
    case MStatus => Go(SetDev(v, d.(status := StatusWord(v.j))), Mmio(MStart))
    case MStart => Go(SetDev(v, StartMmio(d)), if v.j.isI then Wait(First) else Mmio(MPoll))
    case MPoll => Go(v, if Ready(d, true) then AfterOp(v.j) else Mmio(MPoll))
    case MOut => Go(PutKernel(v, Take(d.window, v.j.len)), Mmio(MUser))
    case MUser => v.(c := CopyOut(v.c, Take(Kernel(v.g, v.j), v.j.len), ch))
  }

  /** The DMA branch. */
  function DmaStep(v: View, pc: DmaPC, ch: Choice): View {
    var d := v.g.dev;
    match pc
    case DMap =>
      if ch.Fail? || v.j.msg.None? then Go(v, Up(false))
      else
        v.(c := v.c.(pc := Dma(DAddr), dma := v.j.msg.value), g := v.g.(mapped := v.g.mapped + {v.j.msg.value}))
    case DAddr => Go(SetDev(v, d.(addrOp := v.c.dma)), Dma(DLen))
    case DLen => Go(SetDev(v, d.(dlen := v.j.len)), Dma(DCmd))
    case DCmd => Go(SetDev(v, WriteCmd(d, CmdWord(v.j))), if v.j.isI then Wait(First) else Dma(DPoll))
    case DPoll => Go(v, if Ready(d, false) then AfterOp(v.j) else Dma(DPoll))
    case DUnmap => Go(v.(g := v.g.(mapped := v.g.mapped - {v.c.dma})), Dma(DUser))
    case DUser => v.(c := CopyOut(v.c, Take(Kernel(v.g, v.j), v.j.len), ch))
  }

  /** `wait_event_interruptible` on the busy bit. */
  function WaitStep(v: View, pc: WaitPC, ch: Choice): View {
    var ready := Ready(v.g.dev, v.j.isM);
    v.(c := match pc
      case First => v.c.(pc := if ready then AfterOp(v.j) else Wait(Enqueue))
      case Enqueue => v.c.(pc := Wait(Check), queued := true, woken := false)
      case Check =>
        if ready then v.c.(pc := AfterOp(v.j), queued := false)
        else if ch.Signal? then v.c.(pc := Up(false), err := ERESTARTSYS, queued := false)
        else v.c.(pc := Wait(Sleep))
      case Sleep => v.c.(pc := Wait(Enqueue)))
  }

  /** `vfree(msg)` unless the caller is mapped; freeing NULL does nothing. */
  function Released(g: Shared, j: Job): Shared {
    if j.isNotMM && j.msg.Some?
    then g.(heap := g.heap - {j.msg.value}, freed := g.freed + [j.msg.value])
    else g
  }

  function LocalStep(k: Card, v: View, ch: Choice): View {
    match v.c.pc
    case Idle => v
    case Lib(pc) => LibraryStep(v, pc, ch)
    case Pre(pc) => EntryStep(k, v, pc, ch)
    case Mmio(pc) => MmioStep(v, pc, ch)
    case Dma(pc) => DmaStep(v, pc, ch)
    case Wait(pc) => WaitStep(v, pc, ch)
    case Up(ok) => v.(c := v.c.(pc := Free(ok), ups := v.c.ups + 1), g := v.g.(sem := v.g.sem + 1))
    case Free(ok) =>
      View(Returned(v.c, if ok then 0 else v.c.err), v.j.(msg := None), Released(v.g, v.j))
  }

  predicate WellFormed(s: State) {
    forall t :: 0 <= t < |s.clients| ==> s.clients[t].h < |s.jobs|
  }

  function Look(s: State, t: nat): View
    requires WellFormed(s) && t < |s.clients|
  {
    View(s.clients[t], s.jobs[s.clients[t].h], s.g)
  }

  function Store(s: State, t: nat, v: View): State
    requires WellFormed(s) && t < |s.clients|
  {
    s.(clients := s.clients[t := v.c], jobs := s.jobs[s.clients[t].h := v.j], g := v.g)
  }

  // ----- the card's steps -----

  /** The first `op.len` bytes go through the cipher. */
  function Replace(k: Card, bytes: seq<Byte>, op: Op): seq<Byte> {
    Blit(bytes, 0, k.Cipher(op.isE, op.key, Take(bytes, op.len)))
  }

  /** The card replaces the bytes it was pointed at. */
  function TransformStep(k: Card, g: Shared, dma: bool): Shared {
    var d := g.dev;
    if dma then
      if d.dma.None? then g
      else
        var op := d.dma.value;
        var g1 := g.(dev := d.(dma := Some(op.(done := true))));
        if op.buf !in g.heap then g1
        else g1.(heap := g.heap[op.buf := Replace(k, g.heap[op.buf], op)])
    else
      if d.mmio.None? then g
      else
        var op := d.mmio.value;
        g.(dev := d.(mmio := Some(op.(done := true)), window := Replace(k, d.window, op)))
  }

  /** The card clears busy; if it was asked to, it owes an interrupt. */
  function FinishStep(d: Device, dma: bool): Device {
    if dma then
      if d.dma.None? then d
      else d.(dma := None, cmd := ClearBusy(d.cmd),
              owed := if d.dma.value.irq then d.owed | DMA_DONE else d.owed)
    else
      if d.mmio.None? then d
      else d.(mmio := None, status := ClearBusy(d.status),
              owed := if d.mmio.value.irq then d.owed | MMIO_DONE else d.owed)
  }

  function RaiseStep(d: Device): Device { d.(istatus := d.istatus | d.owed, owed := 0) }

  predicate CardEnabled(d: Device, e: CardEvent) {
    match e
    case Poke(at, _) => at < |d.window|
    case Transform(dma) => if dma then d.dma.Some? && !d.dma.value.done else d.mmio.Some? && !d.mmio.value.done
    case Finish(dma) => if dma then d.dma.Some? && d.dma.value.done else d.mmio.Some? && d.mmio.value.done
    case Raise => d.owed != 0
  }

  function CardStep(k: Card, g: Shared, e: CardEvent): Shared
    requires CardEnabled(g.dev, e)
  {
    match e
    case Poke(at, value) => g.(dev := g.dev.(window := g.dev.window[at := value]))
    case Transform(dma) => TransformStep(k, g, dma)
    case Finish(dma) => g.(dev := FinishStep(g.dev, dma))
    case Raise => g.(dev := RaiseStep(g.dev))
  }

  // ----- the interrupt handler -----

  function WakeAll(cs: seq<Client>): (r: seq<Client>)
    ensures |r| == |cs|
    ensures forall t :: 0 <= t < |cs| ==> r[t] == if cs[t].queued then cs[t].(woken := true) else cs[t]
  {
    seq(|cs|, t requires 0 <= t < |cs| => if cs[t].queued then cs[t].(woken := true) else cs[t])
  }

  function IrqReadStep(s: State): State { s.(irq := Seen(s.g.dev.istatus)) }

  /** Exactly 0x001 or exactly 0x100 wakes the queue; any other value does not. */
  function IrqWakeStep(s: State): State
    requires s.irq.Seen?
  {
    var st := s.irq.status;
    var s1 := s.(irq := Woke(st));
    if st == MMIO_DONE || st == DMA_DONE then s1.(clients := WakeAll(s.clients)) else s1
  }

  function IrqAckStep(s: State): State
    requires s.irq.Woke?
  {
    s.(irq := Quiet, g := s.g.(dev := s.g.dev.(istatus := s.g.dev.istatus & !s.irq.status)))
  }

  predicate IrqEnabled(s: State, e: IrqEvent) {
    match e
    case Read => s.irq.Quiet? && s.g.dev.istatus != 0
    case Wake => s.irq.Seen?
    case Ack => s.irq.Woke?
    case Atomic => s.irq.Quiet? && s.g.dev.istatus != 0
  }

  function IrqStep(s: State, e: IrqEvent): State
    requires IrqEnabled(s, e)
  {
    match e
    case Read => IrqReadStep(s)
    case Wake => IrqWakeStep(s)
    case Ack => IrqAckStep(s)
    case Atomic => IrqAckStep(IrqWakeStep(IrqReadStep(s)))
  }

  // ----- events -----

  predicate ThreadEnabled(v: View, ch: Choice) {
    && !v.c.pc.Idle?
    && (v.c.pc == Pre(Down) && !ch.Signal? ==> v.g.sem > 0)
    && (v.c.pc == Wait(Sleep) ==> v.c.woken || ch.Signal?)
    && (ch.Fail? && (v.c.pc == Mmio(MUser) || v.c.pc == Dma(DUser)) ==> ch.copied < v.c.l.len)
  }

  /** Library calls start between calls; the caller promises `length` bytes at its address. */
  predicate UserEnabled(v: View, u: UserEvent) {
    && v.c.pc.Idle?
    && (u.Call? && !u.mapped ==> u.length <= |v.c.user|)
  }

  function UserStep(v: View, u: UserEvent): View {
    match u
    case Call(enc, mapped, length) =>
      v.(c := v.c.(pc := Lib(IoEncrypt), l := Loop(enc, mapped, 0, 0, length, v.c.l.ret)))
    case SetKey(a, b, readable) =>
      var (j, r) := Ioctl.SetKeyCall(v.j, a, b, readable);
      View(v.c.(l := v.c.l.(ret := r)), j, v.g)
    case SetConfig(kind, value, readable) =>
      var (j, r) := Ioctl.SetConfigCall(v.j, kind, value, readable);
      View(v.c.(l := v.c.l.(ret := r)), j, v.g)
    case Fill(data) => v.(c := v.c.(user := data))
  }

  predicate Enabled(s: State, e: Event) {
    WellFormed(s) &&
    match e
    case Thread(t, ch) => t < |s.clients| && ThreadEnabled(Look(s, t), ch)
    case User(t, u) => t < |s.clients| && UserEnabled(Look(s, t), u)
    case Hardware(c) => CardEnabled(s.g.dev, c)
    case Irq(i) => IrqEnabled(s, i)
  }

  function Next(k: Card, s: State, e: Event): State
    requires Enabled(s, e)
  {
    match e
    case Thread(t, ch) => Store(s, t, LocalStep(k, Look(s, t), ch))
    case User(t, u) => Store(s, t, UserStep(Look(s, t), u))
    case Hardware(c) => s.(g := CardStep(k, s.g, c))
    case Irq(i) => IrqStep(s, i)
  }

  // ----- runs -----

  predicate AtRest(d: Device) {
    d.mmio.None? && d.dma.None? && !Bit(d.status, 1) && !Bit(d.cmd, 1)
  }

  /** Every client between calls, every handle just opened, the card at rest. */
  ghost predicate Initial(s: State) {
    && WellFormed(s)
    && (forall t :: 0 <= t < |s.clients| ==>
          var c := s.clients[t];
          c.pc == Idle && !c.queued && !c.woken && c.downs == c.ups == 0)
    && (forall h :: 0 <= h < |s.jobs| ==> s.jobs[h] == OPENED)
    && s.g.heap == map[] && s.g.nextBuf == 0 && s.g.freed == [] && s.g.mapped == {}
    && s.g.sem == 1 && s.irq == Quiet
    && |s.g.dev.window| == WINDOW
    && AtRest(s.g.dev) && s.g.dev.owed == 0 && s.g.dev.istatus == 0
  }

  /** A finite run: `tr[i]` is the state before event `ev[i]`. */
  ghost predicate Run(k: Card, tr: seq<State>, ev: seq<Event>) {
    && |tr| == |ev| + 1
    && forall i :: 0 <= i < |ev| ==> Enabled(tr[i], ev[i]) && tr[i + 1] == Next(k, tr[i], ev[i])
  }
}
