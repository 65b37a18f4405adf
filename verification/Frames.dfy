/** What one step of a client leaves alone, whichever statement it is at. */
module Frames {
  import opened Types
  import opened Machine

  /** The same operation in memory; on another buffer only if its own has been freed. */
  predicate SameOp(g: Shared, g': Shared) {
    match g.dev.dma
    case None => g'.dev.dma.None?
    case Some(op) =>
      && g'.dev.dma.Some? && g'.dev.dma.value == op.(buf := g'.dev.dma.value.buf)
      && (op.buf in g.heap ==> g'.dev.dma == g.dev.dma)
  }

  /** The card as it was, but for `live`, the interrupt status and the memory of a forgotten operation. */
  predicate SameCard(g: Shared, g': Shared) {
    && g'.mapped == g.mapped && SameOp(g, g')
    && g'.dev == g.dev.(live := g'.dev.live, istatus := g'.dev.istatus, dma := g'.dev.dma)
  }

  /** Registers that only the card and the handler change. */
  predicate SameFlags(d: Device, d': Device) { d'.owed == d.owed && d'.istatus == d.istatus }

  /**
   * Outside the section a client touches only `live`, and puts there only the answer to the
   * probe; it leaves the section by `up` alone; a wait begins with its first test.
   */
  predicate Framed(k: Card, v: View, v': View) {
    var d, d' := v.g.dev, v'.g.dev;
    && SameFlags(d, d') && |d'.window| == |d.window|
    && (d'.live == d.live || d'.live == Answer(k, LIVE_PROBE))
    && (v'.c.pc == Pre(ProbeRead) ==> d'.live == Answer(k, LIVE_PROBE))
    && (v'.c.pc.Wait? ==> v.c.pc.Wait? || v'.c.pc == Wait(First))
    && (!InSection(v.c.pc) || v.c.pc.Up? ==> SameCard(v.g, v'.g))
    && (InSection(v.c.pc) && !InSection(v'.c.pc) ==> v.c.pc.Up?)
  }

  lemma LibraryFramed(k: Card, v: View, pc: LibPC, ch: Choice)
    requires v.c.pc == Lib(pc)
    ensures Framed(k, v, LibraryStep(v, pc, ch))
  {}

  lemma AllocFramed(k: Card, v: View, ch: Choice)
    requires v.c.pc == Pre(Alloc)
    ensures Framed(k, v, AllocStep(v.(j := v.j.(len := v.c.l.len)), ch))
  {}

  lemma ProbeFramed(k: Card, v: View, pc: PrePC, ch: Choice)
    requires v.c.pc == Pre(pc) && (pc.ProbeWrite? || pc.ProbeRead?)
    ensures Framed(k, v, EntryStep(k, v, pc, ch))
  {}

  lemma EntryFramed(k: Card, v: View, pc: PrePC, ch: Choice)
    requires v.c.pc == Pre(pc)
    ensures Framed(k, v, EntryStep(k, v, pc, ch))
  {
    match pc
    case Alloc => AllocFramed(k, v, ch);
    case ProbeWrite => ProbeFramed(k, v, pc, ch);
    case ProbeRead => ProbeFramed(k, v, pc, ch);
    case _ =>
  }

  lemma MmioFramed(k: Card, v: View, pc: MmioPC, ch: Choice)
    requires v.c.pc == Mmio(pc)
    ensures Framed(k, v, MmioStep(v, pc, ch))
  {}

  lemma DmaFramed(k: Card, v: View, pc: DmaPC, ch: Choice)
    requires v.c.pc == Dma(pc)
    ensures Framed(k, v, DmaStep(v, pc, ch))
  {}

  lemma WaitFramed(k: Card, v: View, pc: WaitPC, ch: Choice)
    requires v.c.pc == Wait(pc)
    ensures Framed(k, v, WaitStep(v, pc, ch))
  {}

  lemma HolderFramed(k: Card, v: View, ch: Choice)
    requires v.c.pc.Mmio? || v.c.pc.Dma? || v.c.pc.Wait?
    ensures Framed(k, v, LocalStep(k, v, ch))
  {
    match v.c.pc
    case Mmio(pc) => MmioFramed(k, v, pc, ch);
    case Dma(pc) => DmaFramed(k, v, pc, ch);
    case Wait(pc) => WaitFramed(k, v, pc, ch);
  }

  lemma LocalFramed(k: Card, v: View, ch: Choice)
    ensures Framed(k, v, LocalStep(k, v, ch))
  {
    if v.c.pc.Mmio? || v.c.pc.Dma? || v.c.pc.Wait? {
      HolderFramed(k, v, ch);
    } else if v.c.pc.Lib? {
      LibraryFramed(k, v, v.c.pc.lib, ch);
    } else if v.c.pc.Pre? {
      EntryFramed(k, v, v.c.pc.pre, ch);
    }
  }
}
