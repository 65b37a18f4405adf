/**
 * Isolation, in every run with one client to a handle: signals may cut waits short, the memory
 * under a forgotten operation may be handed out again, and mapped processes may store into the
 * window at any time. What a caller has to be spared is local to it: inheriting such memory,
 * coming in to a forgotten operation on the window, and stores into its message there.
 */
module Isolation {
  import opened Types
  import opened Machine
  import opened Semaphore
  import opened Buffers
  import opened Frames

  // ----- what the section's holder knows -----

  /** The bytes the caller asked to have transformed, and what they must become. */
  function Chunk(v: View): seq<Byte> { v.c.user[Min(v.c.l.off, |v.c.user|)..Min(v.c.l.off + v.c.l.len, |v.c.user|)] }

  function Result(k: Card, v: View): seq<Byte> { k.Cipher(v.j.isE, v.j.keyab, Chunk(v)) }

  /** `w`: the caller's kernel buffer and its message in the window count, because nothing has disturbed them. */
  predicate KernelHolds(v: View, w: bool, s: seq<Byte>) { w && v.j.isNotMM ==> Kernel(v.g, v.j) == s }

  predicate WindowHolds(v: View, w: bool, s: seq<Byte>) { w && v.j.isNotMM ==> Take(v.g.dev.window, v.c.l.len) == s }

  predicate Asked(v: View, op: Op) {
    op.isE == v.j.isE && op.key == v.j.keyab && op.len == v.c.l.len && op.irq == v.j.isI
  }

  /** The card works on the window for this caller, or has finished. */
  predicate MmioBusy(k: Card, v: View, w: bool) {
    var d := v.g.dev;
    && v.j.isM
    && match d.mmio
       case None => !Bit(d.status, 1) && WindowHolds(v, w, Result(k, v))
       case Some(op) =>
         Bit(d.status, 1) && Asked(v, op) && WindowHolds(v, w, if op.done then Result(k, v) else Chunk(v))
  }

  predicate DmaBusy(k: Card, v: View, w: bool) {
    var d := v.g.dev;
    && !v.j.isM
    && match d.dma
       case None => !Bit(d.cmd, 1) && KernelHolds(v, w, Result(k, v))
       case Some(op) =>
         Bit(d.cmd, 1) && Asked(v, op) && v.j.msg == Some(op.buf)
         && KernelHolds(v, w, if op.done then Result(k, v) else Chunk(v))
  }

  /** The operation has bytes still to replace. */
  predicate Pending(op: Option<Op>) { op.Some? && !op.value.done && op.value.len > 0 }

  /** No operation on the window has. */
  predicate Harmless(d: Device) { !Pending(d.mmio) }

  /** An unmapped caller that works through the window. */
  predicate ByWindow(v: View) { v.j.isM && v.j.isNotMM }

  /** No forgotten operation will run over a message that counts. */
  predicate Unharmed(v: View, w: bool) { w && ByWindow(v) ==> Harmless(v.g.dev) }

  predicate MmioOk(k: Card, v: View, w: bool, pc: MmioPC) {
    var d := v.g.dev;
    match pc
    case LoadKey => KernelHolds(v, w, Chunk(v)) && Unharmed(v, w)
    case MLen => KernelHolds(v, w, Chunk(v)) && Unharmed(v, w) && d.keys == v.j.keyab
    case MData => KernelHolds(v, w, Chunk(v)) && Unharmed(v, w) && d.keys == v.j.keyab && d.lenMsg == v.j.len
    case MStatus => WindowHolds(v, w, Chunk(v)) && Unharmed(v, w) && d.keys == v.j.keyab && d.lenMsg == v.j.len
    case MStart =>
      && WindowHolds(v, w, Chunk(v)) && Unharmed(v, w) && d.keys == v.j.keyab && d.lenMsg == v.j.len
      && d.status == StatusWord(v.j)
    case MPoll => MmioBusy(k, v, w) && !v.j.isI
    case MOut => WindowHolds(v, w, Result(k, v)) && Unharmed(v, w)
    case MUser => KernelHolds(v, w, Result(k, v))
  }

  predicate DmaOk(k: Card, v: View, w: bool, pc: DmaPC) {
    var d := v.g.dev;
    match pc
    case DMap => KernelHolds(v, w, Chunk(v)) && d.keys == v.j.keyab
    case DAddr => KernelHolds(v, w, Chunk(v)) && d.keys == v.j.keyab
    case DLen => KernelHolds(v, w, Chunk(v)) && d.keys == v.j.keyab && d.addrOp == v.c.dma
    case DCmd => KernelHolds(v, w, Chunk(v)) && d.keys == v.j.keyab && d.addrOp == v.c.dma && d.dlen == v.j.len
    case DPoll => DmaBusy(k, v, w) && !v.j.isI
    case DUnmap => KernelHolds(v, w, Result(k, v))
    case DUser => KernelHolds(v, w, Result(k, v))
  }

  predicate SecOk(k: Card, v: View, w: bool) {
    match v.c.pc
    case Pre(pc) => pc.Down? ==> KernelHolds(v, w, Chunk(v))
    case Mmio(pc) => MmioOk(k, v, w, pc)
    case Dma(pc) => DmaOk(k, v, w, pc)
    case Wait(_) => if v.j.isM then MmioBusy(k, v, w) else DmaBusy(k, v, w)
    case _ => true
  }

  /** A buffer that counts has an operation pending on it only while its owner waits for it, or is on its way out. */
  predicate OpOk(v: View, w: bool) {
    v.g.dev.dma.Some? ==>
      && v.g.dev.dma.value.buf < v.g.nextBuf
      && (w && v.j.msg == Some(v.g.dev.dma.value.buf) && Pending(v.g.dev.dma) ==>
        (v.c.pc.Wait? && !v.j.isM) || v.c.pc == Dma(DPoll) || v.c.pc.Up? || v.c.pc.Free?)
  }

  /** Nobody's buffer and message count. */
  const NOBODY := -1

  /** The invariant; `me` is the one client, if any, whose buffer and message count. */
  ghost predicate IsoOk(k: Card, s: State, me: int) {
    && k.Good() && SemOk(s) && BufOk(s)
    && |s.g.dev.window| == WINDOW
    && (forall t :: 0 <= t < |s.clients| ==> OpOk(Look(s, t), t == me))
    && (forall t :: 0 <= t < |s.clients| ==> SecOk(k, Look(s, t), t == me))
  }

  // ----- which runs -----

  /** A wait cut short by a signal while the card is still busy. */
  predicate Interrupted(v: View, ch: Choice) {
    v.c.pc == Wait(Check) && ch.Signal? && !Ready(v.g.dev, v.j.isM)
  }

  /** From the copy into the window to the copy out of it: an unmapped caller's bytes are there. */
  predicate InWindow(v: View) {
    ByWindow(v)
    && (v.c.pc.Wait? || v.c.pc == Mmio(MStatus) || v.c.pc == Mmio(MStart)
        || v.c.pc == Mmio(MPoll) || v.c.pc == Mmio(MOut))
  }

  /** Somebody stores another byte into the caller's message while it is in the window. */
  predicate Overwrites(v: View, e: CardEvent) {
    e.Poke? && InWindow(v) && e.at < v.c.l.len && e.at < |v.g.dev.window| && e.value != v.g.dev.window[e.at]
  }

  /** The caller takes the semaphore although an operation on the window is still to replace bytes. */
  predicate Rushes(v: View, ch: Choice) {
    v.c.pc == Pre(Down) && !ch.Signal? && ByWindow(v) && !Harmless(v.g.dev)
  }

  /** The caller is given memory on which a forgotten operation is still to replace bytes. */
  predicate Inherits(v: View, ch: Choice) {
    v.c.pc == Pre(Alloc) && ch.Reuse? && v.j.isNotMM && v.c.l.len > 0 && Forgotten(v.g) && Pending(v.g.dev.dma)
  }

  /** Nothing happens that client `me` cannot bear; of the three only the last concerns a caller by DMA. */
  predicate Undisturbed(s: State, e: Event, me: int)
    requires WellFormed(s)
  {
    0 <= me < |s.clients| ==>
      && (e.Hardware? ==> !Overwrites(Look(s, me), e.e))
      && (e.Thread? && e.t == me ==> !Rushes(Look(s, me), e.ch) && !Inherits(Look(s, me), e.ch))
  }

  ghost predicate QuietRun(tr: seq<State>, ev: seq<Event>, me: int, i: nat, j: nat)
    requires |tr| == |ev| + 1 && j <= |ev|
  {
    forall m :: i <= m < j ==> WellFormed(tr[m]) && Undisturbed(tr[m], ev[m], me)
  }

  // ----- a client's own steps -----

  /** `copy_from_user` fills the kernel buffer with exactly the caller's chunk. */
  lemma CopiedIn(v: View)
    requires LocalOk(v) && v.c.pc == Pre(CopyIn)
    ensures var v' := PutKernel(v, Take(v.c.user[Min(v.c.l.off, |v.c.user|)..], v.j.len));
      v'.c == v.c && v'.j == v.j && Kernel(v'.g, v'.j) == Chunk(v)
  {
    var from := v.c.user[v.c.l.off..];
    assert Take(from, v.j.len) == Chunk(v);
    assert |Kernel(v.g, v.j)| == |Chunk(v)|;
  }

  lemma EntrySec(k: Card, v: View, w: bool, pc: PrePC, ch: Choice)
    requires LocalOk(v) && v.c.pc == Pre(pc) && SecOk(k, v, w)
    requires w ==> !Rushes(v, ch)
    ensures SecOk(k, EntryStep(k, v, pc, ch), w)
  {
    if pc.CopyIn? { CopiedIn(v); }
  }

  /** Keys and length. */
  lemma LoadSec(k: Card, v: View, w: bool, pc: MmioPC, ch: Choice)
    requires v.c.pc == Mmio(pc) && SecOk(k, v, w) && LocalOk(v) && (pc.LoadKey? || pc.MLen?)
    ensures SecOk(k, MmioStep(v, pc, ch), w)
  {}

  /** The message goes into the window. */
  lemma DataSec(k: Card, v: View, w: bool, ch: Choice)
    requires v.c.pc == Mmio(MData) && SecOk(k, v, w) && LocalOk(v) && |v.g.dev.window| == WINDOW
    ensures SecOk(k, MmioStep(v, MData, ch), w)
  {
    if w {
      var s := Kernel(v.g, v.j);
      assert s == Chunk(v) && Take(s, v.j.len) == s;
      assert Take(Blit(v.g.dev.window, 0, s), v.c.l.len) == s;
    }
  }

  lemma StatusSec(k: Card, v: View, w: bool, ch: Choice)
    requires v.c.pc == Mmio(MStatus) && SecOk(k, v, w) && LocalOk(v)
    ensures SecOk(k, MmioStep(v, MStatus, ch), w)
  {}

  /** The card decodes what was written and starts. */
  lemma StartSec(k: Card, v: View, w: bool, ch: Choice)
    requires v.c.pc == Mmio(MStart) && SecOk(k, v, w) && LocalOk(v)
    ensures SecOk(k, MmioStep(v, MStart, ch), w)
  {}

  lemma PollSec(k: Card, v: View, w: bool, ch: Choice)
    requires v.c.pc == Mmio(MPoll) && SecOk(k, v, w) && LocalOk(v)
    ensures SecOk(k, MmioStep(v, MPoll, ch), w)
  {}

  /** The window goes back into the kernel buffer. */
  lemma OutSec(k: Card, v: View, w: bool, ch: Choice)
    requires v.c.pc == Mmio(MOut) && SecOk(k, v, w) && LocalOk(v) && |v.g.dev.window| == WINDOW
    ensures SecOk(k, MmioStep(v, MOut, ch), w)
  {}

  lemma MmioSec(k: Card, v: View, w: bool, pc: MmioPC, ch: Choice)
    requires LocalOk(v) && v.c.pc == Mmio(pc) && SecOk(k, v, w) && |v.g.dev.window| == WINDOW
    ensures SecOk(k, MmioStep(v, pc, ch), w)
  {
    match pc
    case LoadKey => LoadSec(k, v, w, pc, ch);
    case MLen => LoadSec(k, v, w, pc, ch);
    case MData => DataSec(k, v, w, ch);
    case MStatus => StatusSec(k, v, w, ch);
    case MStart => StartSec(k, v, w, ch);
    case MPoll => PollSec(k, v, w, ch);
    case MOut => OutSec(k, v, w, ch);
    case MUser =>
  }

  lemma MapSec(k: Card, v: View, w: bool, ch: Choice)
    requires v.c.pc == Dma(DMap) && SecOk(k, v, w) && LocalOk(v)
    ensures SecOk(k, DmaStep(v, DMap, ch), w)
  {}

  lemma AddressSec(k: Card, v: View, w: bool, pc: DmaPC, ch: Choice)
    requires v.c.pc == Dma(pc) && SecOk(k, v, w) && LocalOk(v) && (pc.DAddr? || pc.DLen?)
    ensures SecOk(k, DmaStep(v, pc, ch), w)
  {}

  lemma CommandSec(k: Card, v: View, w: bool, ch: Choice)
    requires v.c.pc == Dma(DCmd) && SecOk(k, v, w) && LocalOk(v)
    ensures SecOk(k, DmaStep(v, DCmd, ch), w)
  {}

  lemma DmaPollSec(k: Card, v: View, w: bool, ch: Choice)
    requires v.c.pc == Dma(DPoll) && SecOk(k, v, w) && LocalOk(v)
    ensures SecOk(k, DmaStep(v, DPoll, ch), w)
  {}

  lemma UnmapSec(k: Card, v: View, w: bool, ch: Choice)
    requires v.c.pc == Dma(DUnmap) && SecOk(k, v, w) && LocalOk(v)
    ensures SecOk(k, DmaStep(v, DUnmap, ch), w)
  {}

  lemma DmaSec(k: Card, v: View, w: bool, pc: DmaPC, ch: Choice)
    requires LocalOk(v) && v.c.pc == Dma(pc) && SecOk(k, v, w)
    ensures SecOk(k, DmaStep(v, pc, ch), w)
  {
    match pc
    case DMap => MapSec(k, v, w, ch);
    case DAddr => AddressSec(k, v, w, pc, ch);
    case DLen => AddressSec(k, v, w, pc, ch);
    case DCmd => CommandSec(k, v, w, ch);
    case DPoll => DmaPollSec(k, v, w, ch);
    case DUnmap => UnmapSec(k, v, w, ch);
    case DUser =>
  }

  lemma WaitSec(k: Card, v: View, w: bool, pc: WaitPC, ch: Choice)
    requires LocalOk(v) && v.c.pc == Wait(pc) && SecOk(k, v, w)
    ensures SecOk(k, WaitStep(v, pc, ch), w)
  {}

  lemma SectionSec(k: Card, v: View, w: bool, ch: Choice)
    requires LocalOk(v) && SecOk(k, v, w) && |v.g.dev.window| == WINDOW
    requires v.c.pc.Mmio? || v.c.pc.Dma? || v.c.pc.Wait?
    ensures SecOk(k, LocalStep(k, v, ch), w)
  {
    match v.c.pc
    case Mmio(pc) => MmioSec(k, v, w, pc, ch);
    case Dma(pc) => DmaSec(k, v, w, pc, ch);
    case Wait(pc) => WaitSec(k, v, w, pc, ch);
  }

  lemma LocalSec(k: Card, v: View, w: bool, ch: Choice)
    requires k.Good() && LocalOk(v) && SecOk(k, v, w) && ThreadEnabled(v, ch)
    requires |v.g.dev.window| == WINDOW && (w ==> !Rushes(v, ch))
    ensures SecOk(k, LocalStep(k, v, ch), w)
  {
    if v.c.pc.Mmio? || v.c.pc.Dma? || v.c.pc.Wait? {
      SectionSec(k, v, w, ch);
    } else if v.c.pc.Pre? {
      EntrySec(k, v, w, v.c.pc.pre, ch);
    }
  }

  /** Before the allocation there is nothing to count on. */
  lemma NothingThere(k: Card, v: View)
    requires SecOk(k, v, false) && LocalOk(v) && OpOk(v, false) && v.j.msg.None? && !InSection(v.c.pc)
    ensures SecOk(k, v, true) && OpOk(v, true)
  {}

  lemma EntryOp(k: Card, v: View, w: bool, pc: PrePC, ch: Choice)
    requires LocalOk(v) && OpOk(v, w) && v.c.pc == Pre(pc) && (w ==> !Inherits(v, ch))
    ensures OpOk(EntryStep(k, v, pc, ch), w)
  {}

  lemma MmioOp(v: View, w: bool, pc: MmioPC, ch: Choice)
    requires LocalOk(v) && OpOk(v, w) && v.c.pc == Mmio(pc)
    ensures OpOk(MmioStep(v, pc, ch), w)
  {}

  lemma DmaOp(k: Card, v: View, w: bool, pc: DmaPC, ch: Choice)
    requires LocalOk(v) && SecOk(k, v, false) && OpOk(v, w) && v.c.pc == Dma(pc)
    requires forall b :: b in v.g.heap ==> b < v.g.nextBuf
    ensures OpOk(DmaStep(v, pc, ch), w)
  {}

  lemma WaitOp(k: Card, v: View, w: bool, pc: WaitPC, ch: Choice)
    requires LocalOk(v) && SecOk(k, v, false) && OpOk(v, w) && v.c.pc == Wait(pc)
    ensures OpOk(WaitStep(v, pc, ch), w)
  {}

  /** Starting the card on one's own buffer is followed by the wait for it. */
  lemma LocalOp(k: Card, v: View, w: bool, ch: Choice)
    requires LocalOk(v) && SecOk(k, v, false) && OpOk(v, w) && 0 <= v.g.nextBuf && (w ==> !Inherits(v, ch))
    requires forall b :: b in v.g.heap ==> b < v.g.nextBuf
    ensures OpOk(LocalStep(k, v, ch), w)
  {
    match v.c.pc
    case Idle =>
    case Lib(pc) => assert LibraryStep(v, pc, ch).g == v.g && LibraryStep(v, pc, ch).j.msg == v.j.msg;
    case Pre(pc) => EntryOp(k, v, w, pc, ch);
    case Mmio(pc) => MmioOp(v, w, pc, ch);
    case Dma(pc) => DmaOp(k, v, w, pc, ch);
    case Wait(pc) => WaitOp(k, v, w, pc, ch);
    case Up(_) =>
    case Free(_) =>
  }

  // ----- everyone else -----

  /** A client outside the section only relies on its own kernel buffer. */
  lemma OutsideFrame(k: Card, v: View, w: bool, g: Shared)
    requires LocalOk(v) && SecOk(k, v, w) && !InSection(v.c.pc)
    requires w && v.j.msg.Some? && v.j.msg.value in v.g.heap ==>
      v.j.msg.value in g.heap && g.heap[v.j.msg.value] == v.g.heap[v.j.msg.value]
    ensures SecOk(k, v.(g := g), w)
  {}

  lemma InsideFrame(k: Card, v: View, w: bool, g: Shared)
    requires LocalOk(v) && SecOk(k, v, w) && SameCard(v.g, g)
    requires v.j.msg.Some? && v.j.msg.value in v.g.heap ==>
      v.j.msg.value in g.heap && g.heap[v.j.msg.value] == v.g.heap[v.j.msg.value]
    ensures SecOk(k, v.(g := g), w)
  {
    var u := v.(g := g);
    assert Kernel(u.g, u.j) == Kernel(v.g, v.j) || v.j.msg.None? || v.j.msg.value !in v.g.heap;
    assert Result(k, u) == Result(k, v) && Chunk(u) == Chunk(v);
  }

  lemma OtherSec(k: Card, s: State, me: int, t: nat, v: View, u: nat)
    requires IsoOk(k, s, me) && t < |s.clients| && u < |s.clients| && u != t
    requires HeapMove(Look(s, t), v) && Framed(k, Look(s, t), v) && v.c.h == s.clients[t].h
    ensures SecOk(k, Look(s, u).(g := v.g), u == me) && Look(Store(s, t, v), u) == Look(s, u).(g := v.g)
  {
    var x := Look(s, u);
    assert LocalOk(x) && SecOk(k, x, u == me);
    if x.j.msg.Some? {
      var b := x.j.msg.value;
      assert Owns(s, u, b) && !Owns(s, t, b);
      assert b in s.g.heap ==> b < s.g.nextBuf;
    }
    if InSection(x.c.pc) {
      assert Inside(s, u) && !Inside(s, t);
      InsideFrame(k, x, u == me, v.g);
    } else {
      OutsideFrame(k, x, u == me, v.g);
    }
  }

  /** The operation in memory stays the same, or is now on the client's own buffer. */
  predicate OpMove(v: View, v': View) {
    v'.g.dev.dma == v.g.dev.dma || (v'.g.dev.dma.Some? && v'.j.msg == Some(v'.g.dev.dma.value.buf))
  }

  lemma DmaOpMove(k: Card, v: View, pc: DmaPC, ch: Choice)
    requires LocalOk(v) && SecOk(k, v, false) && v.c.pc == Dma(pc)
    ensures OpMove(v, DmaStep(v, pc, ch))
  {}

  lemma EntryOpMove(k: Card, v: View, pc: PrePC, ch: Choice)
    requires v.c.pc == Pre(pc)
    ensures OpMove(v, EntryStep(k, v, pc, ch))
  {}

  lemma LocalOpMove(k: Card, v: View, ch: Choice)
    requires LocalOk(v) && SecOk(k, v, false)
    ensures OpMove(v, LocalStep(k, v, ch))
  {
    match v.c.pc
    case Idle =>
    case Lib(pc) => assert LibraryStep(v, pc, ch).g == v.g;
    case Pre(pc) => EntryOpMove(k, v, pc, ch);
    case Mmio(pc) => assert MmioStep(v, pc, ch).g.dev.dma == v.g.dev.dma;
    case Dma(pc) => DmaOpMove(k, v, pc, ch);
    case Wait(pc) => assert WaitStep(v, pc, ch).g == v.g;
    case Up(_) =>
    case Free(_) =>
  }

  lemma OwnNameIsOld(s: State, u: nat, b: int)
    requires BufOk(s) && u < |s.clients| && Owns(s, u, b)
    ensures b in s.g.heap && b < s.g.nextBuf
  {
    assert LocalOk(Look(s, u));
  }

  lemma OtherOp(k: Card, s: State, me: int, t: nat, v: View, u: nat)
    requires IsoOk(k, s, me) && t < |s.clients| && u < |s.clients| && u != t && v.c.h == s.clients[t].h
    requires HeapMove(Look(s, t), v) && OpMove(Look(s, t), v) && OpOk(v, t == me)
    ensures OpOk(Look(s, u).(g := v.g), u == me)
  {
    var x := Look(s, u);
    assert OpOk(x, u == me) && LocalOk(x);
    if x.j.msg.Some? {
      var b := x.j.msg.value;
      assert Owns(s, u, b) && !Owns(s, t, b);
      OwnNameIsOld(s, u, b);
    }
  }

  lemma StoreIso(k: Card, s: State, me: int, t: nat, v: View)
    requires IsoOk(k, s, me) && t < |s.clients|
    requires Moves(Look(s, t), v) && HeapMove(Look(s, t), v) && Framed(k, Look(s, t), v)
    requires LocalOk(v) && SecOk(k, v, t == me) && OpMove(Look(s, t), v) && OpOk(v, t == me)
    ensures IsoOk(k, Store(s, t, v), me)
  {
    var s' := Store(s, t, v);
    StoreKeepsSem(s, t, v);
    StoreBuf(s, t, v);
    assert Look(s', t) == v;
    forall u | 0 <= u < |s.clients| && u != t
      ensures SecOk(k, Look(s', u), u == me) && OpOk(Look(s', u), u == me)
    {
      OtherSec(k, s, me, t, v, u);
      OtherOp(k, s, me, t, v, u);
    }
    assert Inside(s, t) == InSection(s.clients[t].pc) && Inside(s', t) == InSection(v.c.pc);
  }

  // ----- the card -----

  /** A store into the window is felt only by a caller whose message it hits. */
  lemma PokeSec(k: Card, v: View, w: bool, e: CardEvent)
    requires LocalOk(v) && SecOk(k, v, w) && InSection(v.c.pc)
    requires e.Poke? && CardEnabled(v.g.dev, e) && (w ==> !Overwrites(v, e))
    ensures SecOk(k, v.(g := CardStep(k, v.g, e)), w)
  {
    var v' := v.(g := CardStep(k, v.g, e));
    assert Chunk(v') == Chunk(v) && Result(k, v') == Result(k, v);
    if w && InWindow(v) {
      assert Take(v'.g.dev.window, v.c.l.len) == Take(v.g.dev.window, v.c.l.len);
    }
  }

  lemma TransformMmio(k: Card, v: View, w: bool)
    requires k.Good() && MmioBusy(k, v, w) && |v.g.dev.window| == WINDOW && v.c.l.len <= CHUNK
    requires CardEnabled(v.g.dev, Transform(false))
    ensures MmioBusy(k, v.(g := TransformStep(k, v.g, false)), w)
  {
    var v' := v.(g := TransformStep(k, v.g, false));
    assert Chunk(v') == Chunk(v) && Result(k, v') == Result(k, v);
    var op := v.g.dev.mmio.value;
    var bytes := Take(v.g.dev.window, op.len);
    assert |k.Cipher(op.isE, op.key, bytes)| == |bytes|;
    assert Take(v'.g.dev.window, op.len) == k.Cipher(op.isE, op.key, bytes);
  }

  lemma TransformDma(k: Card, v: View, w: bool)
    requires k.Good() && DmaBusy(k, v, w) && LocalOk(v) && (v.c.pc.Wait? || v.c.pc == Dma(DPoll))
    requires CardEnabled(v.g.dev, Transform(true))
    ensures DmaBusy(k, v.(g := TransformStep(k, v.g, true)), w)
  {
    var v' := v.(g := TransformStep(k, v.g, true));
    assert Chunk(v') == Chunk(v) && Result(k, v') == Result(k, v);
    var op := v.g.dev.dma.value;
    var bytes := v.g.heap[op.buf];
    assert Take(bytes, op.len) == bytes && |k.Cipher(op.isE, op.key, bytes)| == |bytes|;
    assert v'.g.heap[op.buf] == k.Cipher(op.isE, op.key, bytes);
  }

  /** The client waits for the card, and so an operation of its own kind is its own. */
  predicate Waits(v: View) { v.c.pc.Wait? || v.c.pc == Mmio(MPoll) || v.c.pc == Dma(DPoll) }

  /** What a client relies on if its kernel buffer, its registers and the message in the window are as they were. */
  lemma SameSec(k: Card, v: View, w: bool, g: Shared)
    requires LocalOk(v) && SecOk(k, v, w) && !Waits(v)
    requires g.dev.keys == v.g.dev.keys && g.dev.lenMsg == v.g.dev.lenMsg
    requires g.dev.addrOp == v.g.dev.addrOp && g.dev.dlen == v.g.dev.dlen
    requires v.c.pc == Mmio(MStart) && v.g.dev.status == StatusWord(v.j) ==> g.dev.status == StatusWord(v.j)
    requires w ==> Kernel(g, v.j) == Kernel(v.g, v.j)
    requires w && InWindow(v) ==> Take(g.dev.window, v.c.l.len) == Take(v.g.dev.window, v.c.l.len)
    requires w && ByWindow(v) && Harmless(v.g.dev) ==> Harmless(g.dev)
    ensures SecOk(k, v.(g := g), w)
  {
    var u := v.(g := g);
    assert Result(k, u) == Result(k, v) && Chunk(u) == Chunk(v);
  }

  /** An operation with nothing to replace replaces nothing. */
  lemma NothingReplaced(k: Card, bytes: seq<Byte>, op: Op)
    requires k.Good() && op.len == 0
    ensures Replace(k, bytes, op) == bytes
  {
    assert |k.Cipher(op.isE, op.key, Take(bytes, 0))| == 0;
  }

  /** A writer that waits for its operation in memory does not look at the window. */
  lemma WindowIsElse(k: Card, v: View, w: bool, g: Shared)
    requires LocalOk(v) && SecOk(k, v, w) && Waits(v) && !v.j.isM
    requires g.dev.dma == v.g.dev.dma && g.dev.cmd == v.g.dev.cmd && g.heap == v.g.heap
    ensures SecOk(k, v.(g := g), w)
  {
    var u := v.(g := g);
    assert Result(k, u) == Result(k, v) && Chunk(u) == Chunk(v);
  }

  /** An operation on the window, forgotten or not, while the client does not wait for one. */
  lemma TransformElse(k: Card, v: View, w: bool)
    requires k.Good() && LocalOk(v) && SecOk(k, v, w) && InSection(v.c.pc) && (v.j.isM ==> !Waits(v))
    requires CardEnabled(v.g.dev, Transform(false))
    ensures SecOk(k, v.(g := TransformStep(k, v.g, false)), w)
  {
    if Waits(v) {
      WindowIsElse(k, v, w, TransformStep(k, v.g, false));
    } else {
      if v.g.dev.mmio.value.len == 0 { NothingReplaced(k, v.g.dev.window, v.g.dev.mmio.value); }
      SameSec(k, v, w, TransformStep(k, v.g, false));
    }
  }

  /** A writer that waits for its operation on the window does not look at the others' buffers. */
  lemma MemoryIsElse(k: Card, v: View, w: bool, g: Shared)
    requires LocalOk(v) && SecOk(k, v, w) && Waits(v) && v.j.isM
    requires g.dev.mmio == v.g.dev.mmio && g.dev.status == v.g.dev.status && g.dev.window == v.g.dev.window
    ensures SecOk(k, v.(g := g), w)
  {
    var u := v.(g := g);
    assert Result(k, u) == Result(k, v) && Chunk(u) == Chunk(v);
  }

  /** Whatever else the card works on in memory, it leaves a buffer that counts alone. */
  lemma OthersBuffer(k: Card, v: View)
    requires k.Good() && LocalOk(v) && OpOk(v, true) && CardEnabled(v.g.dev, Transform(true))
    requires !((v.c.pc.Wait? && !v.j.isM) || v.c.pc == Dma(DPoll) || v.c.pc.Up? || v.c.pc.Free?)
    ensures TransformStep(k, v.g, true).heap.Keys == v.g.heap.Keys
    ensures Kernel(TransformStep(k, v.g, true), v.j) == Kernel(v.g, v.j)
  {
    var op := v.g.dev.dma.value;
    if op.buf in v.g.heap && op.len == 0 { NothingReplaced(k, v.g.heap[op.buf], op); }
  }

  /** An operation in memory, on a buffer this client does not rely on. */
  lemma TransformOther(k: Card, v: View, w: bool)
    requires k.Good() && LocalOk(v) && SecOk(k, v, w) && OpOk(v, w) && InSection(v.c.pc) && (!v.j.isM ==> !Waits(v))
    requires CardEnabled(v.g.dev, Transform(true))
    ensures SecOk(k, v.(g := TransformStep(k, v.g, true)), w)
  {
    if Waits(v) {
      MemoryIsElse(k, v, w, TransformStep(k, v.g, true));
    } else if !v.c.pc.Up? {
      if w { OthersBuffer(k, v); }
      SameSec(k, v, w, TransformStep(k, v.g, true));
    }
  }

  lemma TransformSec(k: Card, v: View, w: bool, dma: bool)
    requires k.Good() && LocalOk(v) && SecOk(k, v, w) && OpOk(v, w) && InSection(v.c.pc) && |v.g.dev.window| == WINDOW
    requires CardEnabled(v.g.dev, Transform(dma))
    ensures SecOk(k, v.(g := TransformStep(k, v.g, dma)), w)
  {
    if Waits(v) && v.j.isM && !dma {
      TransformMmio(k, v, w);
    } else if Waits(v) && !v.j.isM && dma {
      TransformDma(k, v, w);
    } else if dma {
      TransformOther(k, v, w);
    } else {
      TransformElse(k, v, w);
    }
  }

  /** The end of one's own operation. */
  lemma FinishOwn(k: Card, v: View, w: bool)
    requires LocalOk(v) && SecOk(k, v, w) && Waits(v) && CardEnabled(v.g.dev, Finish(!v.j.isM))
    ensures SecOk(k, v.(g := v.g.(dev := FinishStep(v.g.dev, !v.j.isM))), w)
  {
    var u := v.(g := v.g.(dev := FinishStep(v.g.dev, !v.j.isM)));
    assert Result(k, u) == Result(k, v) && Chunk(u) == Chunk(v);
  }

  lemma FinishSec(k: Card, v: View, w: bool, dma: bool)
    requires LocalOk(v) && SecOk(k, v, w) && InSection(v.c.pc)
    requires CardEnabled(v.g.dev, Finish(dma))
    ensures SecOk(k, v.(g := v.g.(dev := FinishStep(v.g.dev, dma))), w)
  {
    var g := v.g.(dev := FinishStep(v.g.dev, dma));
    if !Waits(v) {
      SameSec(k, v, w, g);
    } else if dma == !v.j.isM {
      FinishOwn(k, v, w);
    } else if dma {
      MemoryIsElse(k, v, w, g);
    } else {
      WindowIsElse(k, v, w, g);
    }
  }

  lemma HolderSec(k: Card, v: View, w: bool, e: CardEvent)
    requires k.Good() && LocalOk(v) && SecOk(k, v, w) && OpOk(v, w) && InSection(v.c.pc) && |v.g.dev.window| == WINDOW
    requires CardEnabled(v.g.dev, e) && (w ==> !Overwrites(v, e))
    ensures SecOk(k, v.(g := CardStep(k, v.g, e)), w)
  {
    match e
    case Poke(_, _) => PokeSec(k, v, w, e);
    case Transform(dma) => TransformSec(k, v, w, dma);
    case Finish(dma) => FinishSec(k, v, w, dma);
    case Raise =>
  }

  /** A client outside the section: the card may work on a buffer that counts only when the client is on its way out. */
  lemma OutsideSec(k: Card, v: View, w: bool, e: CardEvent)
    requires k.Good() && LocalOk(v) && SecOk(k, v, w) && OpOk(v, w) && !InSection(v.c.pc) && CardEnabled(v.g.dev, e)
    ensures SecOk(k, v.(g := CardStep(k, v.g, e)), w)
  {
    if v.c.pc == Pre(Down) {
      if w && e == Transform(true) { OthersBuffer(k, v); }
      OutsideFrame(k, v, w, CardStep(k, v.g, e));
    }
  }

  lemma CardOp(k: Card, v: View, w: bool, e: CardEvent)
    requires OpOk(v, w) && CardEnabled(v.g.dev, e)
    ensures OpOk(v.(g := CardStep(k, v.g, e)), w)
  {}

  lemma CardSecAt(k: Card, s: State, me: int, e: CardEvent, t: nat)
    requires IsoOk(k, s, me) && CardEnabled(s.g.dev, e) && Undisturbed(s, Hardware(e), me) && t < |s.clients|
    ensures SecOk(k, Look(s, t).(g := CardStep(k, s.g, e)), t == me)
    ensures OpOk(Look(s, t).(g := CardStep(k, s.g, e)), t == me)
  {
    var v := Look(s, t);
    assert LocalOk(v) && SecOk(k, v, t == me) && OpOk(v, t == me);
    CardOp(k, v, t == me, e);
    if InSection(v.c.pc) {
      HolderSec(k, v, t == me, e);
    } else {
      OutsideSec(k, v, t == me, e);
    }
  }

  lemma CardIso(k: Card, s: State, me: int, e: CardEvent)
    requires IsoOk(k, s, me) && CardEnabled(s.g.dev, e) && Undisturbed(s, Hardware(e), me)
    ensures IsoOk(k, s.(g := CardStep(k, s.g, e)), me)
  {
    var g := CardStep(k, s.g, e);
    var s' := s.(g := g);
    CardKeepsSem(k, s, e);
    CardBuf(k, s, e);
    forall t | 0 <= t < |s.clients|
      ensures SecOk(k, Look(s', t), t == me) && OpOk(Look(s', t), t == me)
    {
      CardSecAt(k, s, me, e, t);
    }
  }

  // ----- every step -----

  lemma WakeEffect(s: State, t: nat)
    requires WellFormed(s) && s.irq.Seen? && t < |s.clients|
    ensures var s' := IrqWakeStep(s);
      && s'.jobs == s.jobs && s'.g == s.g && |s'.clients| == |s.clients|
      && (s'.clients[t] == s.clients[t] || s'.clients[t] == s.clients[t].(woken := true))
  {}

  lemma IrqEffect(s: State, i: IrqEvent, t: nat)
    requires WellFormed(s) && IrqEnabled(s, i) && t < |s.clients|
    ensures var v, v' := Look(s, t), Look(IrqStep(s, i), t);
      && v'.j == v.j && v'.g.heap == v.g.heap && v'.g.nextBuf == v.g.nextBuf && SameCard(v.g, v'.g)
      && v'.g.dev.dma == v.g.dev.dma
      && (v'.c == v.c || v'.c == v.c.(woken := true))
  {
    if i.Wake? { WakeEffect(s, t); }
    if i.Atomic? { WakeEffect(IrqReadStep(s), t); }
  }

  lemma WokenFrame(k: Card, v: View, w: bool, c: Client)
    requires SecOk(k, v, w) && (c == v.c || c == v.c.(woken := true))
    ensures SecOk(k, v.(c := c), w)
  {
    var u := v.(c := c);
    assert Chunk(u) == Chunk(v) && Result(k, u) == Result(k, v);
  }

  lemma IrqFrame(k: Card, v: View, w: bool, v': View)
    requires LocalOk(v) && SecOk(k, v, w) && OpOk(v, w)
    requires v'.j == v.j && v'.g.heap == v.g.heap && v'.g.nextBuf == v.g.nextBuf && SameCard(v.g, v'.g)
    requires v'.g.dev.dma == v.g.dev.dma && (v'.c == v.c || v'.c == v.c.(woken := true))
    ensures SecOk(k, v', w) && OpOk(v', w)
  {
    InsideFrame(k, v, w, v'.g);
    WokenFrame(k, v.(g := v'.g), w, v'.c);
  }

  lemma IrqSec(k: Card, s: State, me: int, i: IrqEvent, t: nat)
    requires IsoOk(k, s, me) && IrqEnabled(s, i) && t < |s.clients|
    ensures SecOk(k, Look(IrqStep(s, i), t), t == me) && OpOk(Look(IrqStep(s, i), t), t == me)
  {
    var v := Look(s, t);
    IrqEffect(s, i, t);
    assert LocalOk(v) && SecOk(k, v, t == me) && OpOk(v, t == me);
    IrqFrame(k, v, t == me, Look(IrqStep(s, i), t));
  }

  lemma IrqIso(k: Card, s: State, me: int, i: IrqEvent)
    requires IsoOk(k, s, me) && IrqEnabled(s, i)
    ensures IsoOk(k, IrqStep(s, i), me)
  {
    var s' := IrqStep(s, i);
    IrqKeepsSem(s, i);
    IrqBuf(s, i);
    forall t | 0 <= t < |s.clients|
      ensures SecOk(k, Look(s', t), t == me) && OpOk(Look(s', t), t == me)
    {
      IrqSec(k, s, me, i, t);
    }
  }

  lemma Unattended(k: Card, v: View, w: bool)
    requires SecOk(k, v, w)
    ensures SecOk(k, v, false)
  {}

  /** What is known of one client's own step. */
  lemma ThreadFacts(k: Card, v: View, w: bool, ch: Choice)
    requires k.Good() && LocalOk(v) && SecOk(k, v, w) && OpOk(v, w) && 0 <= v.g.nextBuf && Ledger(v.g)
    requires ThreadEnabled(v, ch) && |v.g.dev.window| == WINDOW && (w ==> !Rushes(v, ch) && !Inherits(v, ch))
    ensures SecOk(k, LocalStep(k, v, ch), w) && OpMove(v, LocalStep(k, v, ch)) && OpOk(LocalStep(k, v, ch), w)
  {
    Unattended(k, v, w);
    LocalSec(k, v, w, ch);
    LocalOp(k, v, w, ch);
    LocalOpMove(k, v, ch);
  }

  lemma ThreadIso(k: Card, s: State, me: int, t: nat, ch: Choice)
    requires IsoOk(k, s, me) && t < |s.clients| && ThreadEnabled(Look(s, t), ch)
    requires t == me ==> !Rushes(Look(s, t), ch) && !Inherits(Look(s, t), ch)
    ensures IsoOk(k, Store(s, t, LocalStep(k, Look(s, t), ch)), me)
  {
    var v := Look(s, t);
    LocalMoves(k, v, ch);
    LocalBuf(k, v, ch);
    LocalFramed(k, v, ch);
    assert SecOk(k, v, t == me) && OpOk(v, t == me);
    ThreadFacts(k, v, t == me, ch);
    StoreIso(k, s, me, t, LocalStep(k, v, ch));
  }

  lemma UserIso(k: Card, s: State, me: int, t: nat, u: UserEvent)
    requires IsoOk(k, s, me) && Enabled(s, User(t, u))
    ensures IsoOk(k, Next(k, s, User(t, u)), me)
  {
    assert OpOk(Look(s, t), t == me);
    UserBuf(Look(s, t), u);
    StoreIso(k, s, me, t, UserStep(Look(s, t), u));
  }

  lemma IsoStep(k: Card, s: State, me: int, e: Event)
    requires IsoOk(k, s, me) && Enabled(s, e) && Undisturbed(s, e, me)
    ensures IsoOk(k, Next(k, s, e), me)
  {
    match e
    case Thread(t, ch) => ThreadIso(k, s, me, t, ch);
    case User(t, u) => UserIso(k, s, me, t, u);
    case Hardware(c) => CardIso(k, s, me, c);
    case Irq(i) => IrqIso(k, s, me, i);
  }

  lemma InitialIso(k: Card, s: State)
    requires k.Good() && Initial(s) && Distinct(s) && SemOk(s)
    ensures IsoOk(k, s, NOBODY)
  {
    InitialBuf(s);
    assert forall t :: 0 <= t < |s.clients| ==> Look(s, t).c.pc.Idle?;
  }

  /** In every state of every run, whatever is stored into the window and whoever is interrupted. */
  lemma {:induction false} IsoRun(k: Card, tr: seq<State>, ev: seq<Event>, i: nat)
    requires k.Good() && FromStart(k, tr, ev) && i <= |ev|
    ensures IsoOk(k, tr[i], NOBODY)
  {
    if i == 0 {
      MutualExclusion(k, tr, ev, 0);
      InitialIso(k, tr[0]);
    } else {
      IsoRun(k, tr, ev, i - 1);
      IsoStep(k, tr[i - 1], NOBODY, ev[i - 1]);
    }
  }

  /** A client that neither has a buffer nor is in the section. */
  predicate Fresh(s: State, t: nat)
    requires WellFormed(s)
  {
    t < |s.clients| ==> Look(s, t).j.msg.None? && !InSection(s.clients[t].pc)
  }

  lemma IdleIsFresh(k: Card, s: State, t: nat)
    requires IsoOk(k, s, NOBODY) && t < |s.clients| && s.clients[t].pc.Idle?
    ensures Fresh(s, t)
  {
    assert LocalOk(Look(s, t));
  }

  /** Somebody who has nothing yet may start to count on it. */
  lemma Attend(k: Card, s: State, me: nat)
    requires IsoOk(k, s, NOBODY) && Fresh(s, me)
    ensures IsoOk(k, s, me)
  {
    forall t | 0 <= t < |s.clients|
      ensures SecOk(k, Look(s, t), t == me) && OpOk(Look(s, t), t == me)
    {
      assert SecOk(k, Look(s, t), t == NOBODY) && OpOk(Look(s, t), t == NOBODY);
      if t == me { NothingThere(k, Look(s, t)); }
    }
  }

  /** From then on it can, as long as nothing disturbs its own writes. */
  lemma {:induction false} QuietIso(k: Card, tr: seq<State>, ev: seq<Event>, me: nat, i: nat, j: nat)
    requires k.Good() && FromStart(k, tr, ev) && i <= j <= |ev| && QuietRun(tr, ev, me, i, j)
    requires WellFormed(tr[i]) && Fresh(tr[i], me)
    ensures IsoOk(k, tr[j], me)
    decreases j
  {
    if i == j {
      IsoRun(k, tr, ev, i);
      Attend(k, tr[i], me);
    } else {
      QuietIso(k, tr, ev, me, i, j - 1);
      assert Undisturbed(tr[j - 1], ev[j - 1], me);
      IsoStep(k, tr[j - 1], me, ev[j - 1]);
    }
  }

  lemma StepFacts(k: Card, tr: seq<State>, ev: seq<Event>, i: nat)
    requires k.Good() && FromStart(k, tr, ev) && i <= |ev|
    ensures WellFormed(tr[i]) && Distinct(tr[i])
    ensures i < |ev| ==> Enabled(tr[i], ev[i]) && tr[i + 1] == Next(k, tr[i], ev[i])
  {
    IsoRun(k, tr, ev, i);
  }
}
