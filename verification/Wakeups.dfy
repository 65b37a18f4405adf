/**
 * No lost wake-up. If the handler runs as one step, and an interrupt-driven operation is started
 * only when no interrupt of the other transfer mode is still to be acknowledged, a sleeper
 * always has a wake-up coming, whatever signals and stores there are; both conditions are needed.
 */
module Wakeups {
  import opened Types
  import opened Machine
  import opened Semaphore
  import opened Buffers
  import opened Frames
  import opened Isolation
  import opened Paths

  /** The interrupt bit of a transfer mode. */
  function DoneBit(isM: bool): bv32 { if isM then MMIO_DONE else DMA_DONE }

  predicate OpIn(d: Device, isM: bool) { if isM then d.mmio.Some? else d.dma.Some? }

  /** An operation of the mode is under way and will raise an interrupt. */
  predicate WillRaise(d: Device, isM: bool) {
    if isM then d.mmio.Some? && d.mmio.value.irq else d.dma.Some? && d.dma.value.irq
  }

  /** An interrupt of the mode is to come, owed or pending. */
  predicate Outstanding(d: Device, isM: bool) {
    WillRaise(d, isM) || d.owed & DoneBit(isM) != 0 || d.istatus & DoneBit(isM) != 0
  }

  /** A client starts an interrupt-driven operation while an interrupt of the other mode is outstanding. */
  predicate Mixes(v: View) {
    (v.c.pc == Mmio(MStart) || v.c.pc == Dma(DCmd)) && v.j.isI && Outstanding(v.g.dev, !v.j.isM)
  }

  predicate Unmixed(s: State, e: Event)
    requires WellFormed(s)
  {
    e.Thread? && e.t < |s.clients| ==> !Mixes(Look(s, e.t))
  }

  /** All interrupts to come, owed and pending are of one mode. */
  predicate Only(d: Device, isM: bool) {
    && !WillRaise(d, !isM)
    && (d.owed == 0 || d.owed == DoneBit(isM))
    && (d.istatus == 0 || d.istatus == DoneBit(isM))
  }

  predicate OneMode(d: Device) { Only(d, true) || Only(d, false) }

  /** A sleeper not yet woken has a busy card, an interrupt owed, or one pending. */
  predicate Hopeful(v: View) {
    && (v.c.pc == Wait(Check) || v.c.pc == Wait(Sleep) ==> v.c.queued)
    && (v.c.pc == Wait(Sleep) && !v.c.woken ==> OpIn(v.g.dev, v.j.isM) || v.g.dev.owed != 0 || v.g.dev.istatus != 0)
  }

  ghost predicate WakeOk(k: Card, s: State) {
    && IsoOk(k, s, NOBODY) && OneMode(s.g.dev) && s.irq.Quiet?
    && (forall t :: 0 <= t < |s.clients| ==> Hopeful(Look(s, t)))
  }

  /** The handler never stops half-way. */
  predicate Whole(e: Event) { e.Irq? ==> e.i.Atomic? }

  // ----- client steps -----

  lemma WaitHope(k: Card, v: View, pc: WaitPC, ch: Choice)
    requires v.c.pc == Wait(pc) && SecOk(k, v, false) && Hopeful(v) && ThreadEnabled(v, ch)
    ensures Hopeful(WaitStep(v, pc, ch))
  {}

  lemma LocalHope(k: Card, v: View, ch: Choice)
    requires SecOk(k, v, false) && Hopeful(v) && ThreadEnabled(v, ch)
    ensures Hopeful(LocalStep(k, v, ch))
  {
    match v.c.pc
    case Wait(pc) => WaitHope(k, v, pc, ch);
    case _ => LocalFramed(k, v, ch);
  }

  lemma BitItself(isM: bool)
    ensures DoneBit(isM) & DoneBit(isM) != 0
  {}

  /** Starting an operation when nothing of the other mode is outstanding leaves its own mode only. */
  lemma StartsOnly(d: Device, d': Device, isM: bool)
    requires OneMode(d) && !Outstanding(d, !isM)
    requires d'.owed == d.owed && d'.istatus == d.istatus && WillRaise(d', !isM) == WillRaise(d, !isM)
    ensures Only(d', isM)
  {
    BitItself(!isM);
  }

  /** Whatever has been polled for raises nothing. */
  lemma QuietStart(d: Device, d': Device, isM: bool)
    requires OneMode(d) && d'.owed == d.owed && d'.istatus == d.istatus
    requires WillRaise(d', !isM) == WillRaise(d, !isM) && !WillRaise(d', isM)
    ensures OneMode(d')
  {}

  lemma StatusAsks(j: Job)
    ensures Bit(StatusWord(j), 0x80) == j.isI && Bit(CmdWord(j), 4) == j.isI && Bit(CmdWord(j), 1)
  {}

  /** A start touches the operation of its own mode, and asks for an interrupt exactly if the job does. */
  lemma StartShape(k: Card, v: View, ch: Choice)
    requires SecOk(k, v, false) && LocalOk(v) && (v.c.pc == Mmio(MStart) || v.c.pc == Dma(DCmd))
    ensures var d, d' := v.g.dev, LocalStep(k, v, ch).g.dev;
      && d'.owed == d.owed && d'.istatus == d.istatus
      && WillRaise(d', !v.j.isM) == WillRaise(d, !v.j.isM) && WillRaise(d', v.j.isM) == v.j.isI
  {
    StatusAsks(v.j);
  }

  /** The same operations, and the same interrupts to come. */
  predicate SameRaises(d: Device, d': Device) {
    && d'.owed == d.owed && d'.istatus == d.istatus
    && WillRaise(d', true) == WillRaise(d, true) && WillRaise(d', false) == WillRaise(d, false)
  }

  lemma MmioElse(v: View, pc: MmioPC, ch: Choice)
    requires !pc.MStart?
    ensures SameRaises(v.g.dev, MmioStep(v, pc, ch).g.dev)
  {}

  lemma DmaElse(v: View, pc: DmaPC, ch: Choice)
    requires !pc.DCmd?
    ensures SameRaises(v.g.dev, DmaStep(v, pc, ch).g.dev)
  {
    if pc.DMap? || pc.DPoll? || pc.DUnmap? || pc.DUser? { assert DmaStep(v, pc, ch).g.dev == v.g.dev; }
  }

  lemma ElseSame(k: Card, v: View, ch: Choice)
    requires v.c.pc != Mmio(MStart) && v.c.pc != Dma(DCmd)
    ensures SameRaises(v.g.dev, LocalStep(k, v, ch).g.dev)
  {
    match v.c.pc
    case Idle =>
    case Lib(pc) => assert LibraryStep(v, pc, ch).g == v.g;
    case Pre(pc) => EntryFramed(k, v, pc, ch);
    case Mmio(pc) => MmioElse(v, pc, ch);
    case Dma(pc) => DmaElse(v, pc, ch);
    case Wait(pc) => assert WaitStep(v, pc, ch).g == v.g;
    case Up(_) =>
    case Free(_) =>
  }

  lemma LocalOneMode(k: Card, v: View, ch: Choice)
    requires SecOk(k, v, false) && LocalOk(v) && OneMode(v.g.dev) && !Mixes(v)
    ensures OneMode(LocalStep(k, v, ch).g.dev)
  {
    if v.c.pc == Mmio(MStart) || v.c.pc == Dma(DCmd) {
      StartShape(k, v, ch);
      if v.j.isI {
        StartsOnly(v.g.dev, LocalStep(k, v, ch).g.dev, v.j.isM);
      } else {
        QuietStart(v.g.dev, LocalStep(k, v, ch).g.dev, v.j.isM);
      }
    } else {
      ElseSame(k, v, ch);
    }
  }

  /** While somebody sleeps nobody else can change the card's operation. */
  lemma StoreWake(k: Card, s: State, t: nat, v: View)
    requires WakeOk(k, s) && t < |s.clients| && v.c.h == s.clients[t].h
    requires Framed(k, Look(s, t), v) && Hopeful(v) && OneMode(v.g.dev)
    requires IsoOk(k, Store(s, t, v), NOBODY)
    ensures WakeOk(k, Store(s, t, v))
  {
    var s' := Store(s, t, v);
    assert Look(s', t) == v;
    forall u | 0 <= u < |s.clients| && u != t
      ensures Hopeful(Look(s', u))
    {
      assert Hopeful(Look(s, u)) && Look(s', u) == Look(s, u).(g := v.g);
      if s.clients[u].pc.Wait? {
        assert Inside(s, u) && !Inside(s, t);
      }
    }
  }

  lemma ThreadWake(k: Card, s: State, t: nat, ch: Choice)
    requires WakeOk(k, s) && t < |s.clients| && ThreadEnabled(Look(s, t), ch) && !Mixes(Look(s, t))
    ensures WakeOk(k, Store(s, t, LocalStep(k, Look(s, t), ch)))
  {
    var v := Look(s, t);
    ThreadIso(k, s, NOBODY, t, ch);
    LocalMoves(k, v, ch);
    LocalFramed(k, v, ch);
    assert SecOk(k, v, false) && Hopeful(v) && LocalOk(v);
    LocalHope(k, v, ch);
    LocalOneMode(k, v, ch);
    StoreWake(k, s, t, LocalStep(k, v, ch));
  }

  /** Between calls a client touches nothing but itself and its own job. */
  lemma UserShape(s: State, t: nat, u: UserEvent)
    requires WellFormed(s) && Distinct(s) && t < |s.clients| && UserEnabled(Look(s, t), u)
    ensures var s' := Store(s, t, UserStep(Look(s, t), u));
      && WellFormed(s') && |s'.clients| == |s.clients| && s'.irq == s.irq && s'.g.dev == s.g.dev
      && Look(s', t) == UserStep(Look(s, t), u) && !Inside(s', t)
      && forall w :: 0 <= w < |s.clients| && w != t ==> Look(s', w) == Look(s, w)
  {}

  lemma UserWake(k: Card, s: State, t: nat, u: UserEvent)
    requires WakeOk(k, s) && t < |s.clients| && UserEnabled(Look(s, t), u)
    ensures WakeOk(k, Store(s, t, UserStep(Look(s, t), u)))
  {
    var s' := Store(s, t, UserStep(Look(s, t), u));
    UserIso(k, s, NOBODY, t, u);
    UserShape(s, t, u);
    assert Hopeful(Look(s, t)) ==> Hopeful(Look(s', t));
  }

  // ----- the card and the handler -----

  /** A sleeper's own operation asks for an interrupt. */
  lemma SleeperAsked(k: Card, v: View)
    requires LocalOk(v) && SecOk(k, v, false) && v.c.pc.Wait? && OpIn(v.g.dev, v.j.isM)
    ensures (if v.j.isM then v.g.dev.mmio.value else v.g.dev.dma.value).irq
  {}

  lemma SomethingOwed(owed: bv32, isM: bool)
    ensures owed | DoneBit(isM) != 0
  {}

  lemma KeepsOwed(d: Device, dma: bool)
    requires d.owed != 0 && OpIn(d, !dma)
    ensures FinishStep(d, dma).owed != 0
  {
    SomethingOwed(d.owed, !dma);
  }

  /** The end of one's own operation leaves an interrupt owed; the end of another changes nothing for the sleeper. */
  lemma FinishHope(k: Card, v: View, dma: bool)
    requires LocalOk(v) && SecOk(k, v, false) && Hopeful(v) && OpIn(v.g.dev, !dma)
    ensures Hopeful(v.(g := v.g.(dev := FinishStep(v.g.dev, dma))))
  {
    SomethingOwed(v.g.dev.owed, !dma);
    if v.c.pc.Wait? && v.j.isM == !dma { SleeperAsked(k, v); }
    if v.g.dev.owed != 0 { KeepsOwed(v.g.dev, dma); }
  }

  lemma TransformHope(k: Card, v: View, dma: bool)
    requires Hopeful(v)
    ensures Hopeful(v.(g := TransformStep(k, v.g, dma)))
  {}

  lemma CardHope(k: Card, v: View, e: CardEvent)
    requires LocalOk(v) && SecOk(k, v, false) && Hopeful(v) && CardEnabled(v.g.dev, e)
    ensures Hopeful(v.(g := CardStep(k, v.g, e)))
  {
    match e
    case Poke(_, _) =>
    case Transform(dma) => TransformHope(k, v, dma);
    case Finish(dma) => FinishHope(k, v, dma);
    case Raise => assert v.g.dev.istatus | v.g.dev.owed != 0;
  }

  lemma OrSame(bits: bv32, isM: bool)
    requires bits == 0 || bits == DoneBit(isM)
    ensures bits | DoneBit(isM) == DoneBit(isM) && (bits | 0 == bits) && (0 | bits == bits)
  {}

  lemma FinishOnly(d: Device, dma: bool, isM: bool)
    requires Only(d, isM) && OpIn(d, !dma)
    ensures Only(FinishStep(d, dma), isM)
  {
    OrSame(d.owed, isM);
  }

  lemma RaiseOnly(d: Device, isM: bool)
    requires Only(d, isM)
    ensures Only(RaiseStep(d), isM)
  {
    OrSame(d.istatus, isM);
    OrSame(d.owed, isM);
  }

  lemma TransformOnly(k: Card, g: Shared, dma: bool, isM: bool)
    requires Only(g.dev, isM)
    ensures Only(TransformStep(k, g, dma).dev, isM)
  {}

  lemma CardOnly(k: Card, g: Shared, e: CardEvent, isM: bool)
    requires Only(g.dev, isM) && CardEnabled(g.dev, e)
    ensures Only(CardStep(k, g, e).dev, isM)
  {
    match e
    case Poke(_, _) =>
    case Transform(dma) => TransformOnly(k, g, dma, isM);
    case Finish(dma) => FinishOnly(g.dev, dma, isM);
    case Raise => RaiseOnly(g.dev, isM);
  }

  lemma CardOneMode(k: Card, g: Shared, e: CardEvent)
    requires OneMode(g.dev) && CardEnabled(g.dev, e)
    ensures OneMode(CardStep(k, g, e).dev)
  {
    if Only(g.dev, true) {
      CardOnly(k, g, e, true);
    } else {
      CardOnly(k, g, e, false);
    }
  }

  lemma CardWake(k: Card, s: State, e: CardEvent)
    requires WakeOk(k, s) && CardEnabled(s.g.dev, e)
    ensures WakeOk(k, s.(g := CardStep(k, s.g, e)))
  {
    var s' := s.(g := CardStep(k, s.g, e));
    CardIso(k, s, NOBODY, e);
    forall t | 0 <= t < |s.clients|
      ensures Hopeful(Look(s', t))
    {
      assert LocalOk(Look(s, t)) && SecOk(k, Look(s, t), false) && Hopeful(Look(s, t));
      CardHope(k, Look(s, t), e);
    }
    CardOneMode(k, s.g, e);
  }

  lemma Acknowledged(d: Device)
    requires OneMode(d)
    ensures OneMode(d.(istatus := d.istatus & !d.istatus)) && d.istatus & !d.istatus == 0
  {}

  lemma IrqWakes(k: Card, s: State)
    requires WakeOk(k, s) && IrqEnabled(s, Atomic)
    ensures WakeOk(k, IrqStep(s, Atomic))
    ensures forall t :: 0 <= t < |s.clients| && s.clients[t].queued ==> IrqStep(s, Atomic).clients[t].woken
  {
    var s' := IrqStep(s, Atomic);
    IrqIso(k, s, NOBODY, Atomic);
    Acknowledged(s.g.dev);
    assert s'.clients == WakeAll(s.clients) && s'.jobs == s.jobs;
    forall t | 0 <= t < |s.clients|
      ensures Hopeful(Look(s', t))
    {
      assert Hopeful(Look(s, t));
    }
  }

  lemma WakeStep(k: Card, s: State, e: Event)
    requires WakeOk(k, s) && Enabled(s, e) && Whole(e) && Unmixed(s, e)
    ensures WakeOk(k, Next(k, s, e))
  {
    match e
    case Thread(t, ch) => ThreadWake(k, s, t, ch);
    case User(t, u) => UserWake(k, s, t, u);
    case Hardware(c) => CardWake(k, s, c);
    case Irq(i) => IrqWakes(k, s);
  }

  /** An uninterrupted handler, and no start while an interrupt of the other mode is outstanding. */
  ghost predicate PacedRun(k: Card, tr: seq<State>, ev: seq<Event>) {
    && FromStart(k, tr, ev)
    && (forall j :: 0 <= j < |ev| ==> Whole(ev[j]) && WellFormed(tr[j]) && Unmixed(tr[j], ev[j]))
  }

  /** Every reachable state of such a run: no sleeper is forgotten. */
  lemma {:induction false} NoLostWakeup(k: Card, tr: seq<State>, ev: seq<Event>, i: nat)
    requires k.Good() && PacedRun(k, tr, ev) && i <= |ev|
    ensures WakeOk(k, tr[i])
  {
    if i == 0 {
      IsoRun(k, tr, ev, 0);
      assert forall t :: 0 <= t < |tr[0].clients| ==> Look(tr[0], t).c.pc.Idle?;
    } else {
      NoLostWakeup(k, tr, ev, i - 1);
      StepFacts(k, tr, ev, i - 1);
      WakeStep(k, tr[i - 1], ev[i - 1]);
    }
  }

  // ----- progress -----

  predicate Waiting(pc: PC) { pc.Wait? || pc == Mmio(MPoll) || pc == Dma(DPoll) }

  /** The next event, by the card, the handler or the client itself, that brings it on. */
  function Helpful(v: View, t: nat): Event {
    var d := v.g.dev;
    if v.j.isM && d.mmio.Some? then Hardware(if d.mmio.value.done then Finish(false) else Transform(false))
    else if !v.j.isM && d.dma.Some? then Hardware(if d.dma.value.done then Finish(true) else Transform(true))
    else if v.c.pc == Wait(Sleep) && !v.c.woken then (if d.istatus != 0 then Irq(Atomic) else Hardware(Raise))
    else Thread(t, Ok)
  }

  /** How many helpful events are left. */
  function Rank(v: View): nat {
    var d := v.g.dev;
    if OpIn(d, v.j.isM)
    then if (if v.j.isM then d.mmio.value else d.dma.value).done then 6 else 7
    else match v.c.pc
      case Wait(Sleep) => if v.c.woken then 3 else if d.istatus != 0 then 4 else 5
      case Wait(Enqueue) => 2
      case _ => 1
  }

  lemma TransformHelps(k: Card, v: View, dma: bool)
    requires OpIn(v.g.dev, !dma) && v.j.isM == !dma && !(if dma then v.g.dev.dma.value else v.g.dev.mmio.value).done
    ensures Rank(v.(g := TransformStep(k, v.g, dma))) < Rank(v)
  {}

  lemma FinishHelps(v: View, dma: bool)
    requires OpIn(v.g.dev, !dma) && v.j.isM == !dma
    ensures Rank(v.(g := v.g.(dev := FinishStep(v.g.dev, dma)))) < Rank(v)
  {}

  lemma NothingOr(owed: bv32)
    ensures 0 | owed == owed
  {}

  lemma RaiseHelps(v: View)
    requires !OpIn(v.g.dev, v.j.isM) && v.c.pc == Wait(Sleep) && !v.c.woken
    requires v.g.dev.istatus == 0 && v.g.dev.owed != 0
    ensures Rank(v.(g := v.g.(dev := RaiseStep(v.g.dev)))) < Rank(v)
  {
    NothingOr(v.g.dev.owed);
  }

  lemma CardHelps(k: Card, v: View, t: nat)
    requires Hopeful(v) && Helpful(v, t).Hardware?
    ensures CardEnabled(v.g.dev, Helpful(v, t).e) && !Helpful(v, t).e.Poke?
    ensures Rank(v.(g := CardStep(k, v.g, Helpful(v, t).e))) < Rank(v)
  {
    if OpIn(v.g.dev, v.j.isM) {
      if (if v.j.isM then v.g.dev.mmio.value else v.g.dev.dma.value).done {
        FinishHelps(v, !v.j.isM);
      } else {
        TransformHelps(k, v, !v.j.isM);
      }
    } else {
      RaiseHelps(v);
    }
  }

  lemma SelfHelps(k: Card, v: View, t: nat)
    requires LocalOk(v) && SecOk(k, v, false) && Waiting(v.c.pc) && Helpful(v, t).Thread?
    ensures ThreadEnabled(v, Ok)
    ensures var v' := LocalStep(k, v, Ok);
      && v'.j == v.j
      && if Waiting(v'.c.pc) then Rank(v') < Rank(v) else v'.c.pc == AfterOp(v.j)
  {
    match v.c.pc
    case Wait(pc) => assert WaitStep(v, pc, Ok).j == v.j;
    case Mmio(pc) => assert MmioStep(v, pc, Ok).j == v.j;
    case Dma(pc) => assert DmaStep(v, pc, Ok).j == v.j;
  }

  /** One event nearer to the end of the wait, or past it. */
  predicate Nearer(s: State, s': State, t: nat)
    requires WellFormed(s) && t < |s.clients|
  {
    && WellFormed(s') && t < |s'.clients| && Look(s', t).j == Look(s, t).j
    && if Waiting(s'.clients[t].pc) then Rank(Look(s', t)) < Rank(Look(s, t))
       else s'.clients[t].pc == AfterOp(Look(s, t).j)
  }

  lemma HelpfulThread(k: Card, s: State, t: nat)
    requires WakeOk(k, s) && t < |s.clients| && Waiting(s.clients[t].pc) && Helpful(Look(s, t), t).Thread?
    ensures Enabled(s, Thread(t, Ok))
    ensures WakeOk(k, Next(k, s, Thread(t, Ok))) && Nearer(s, Next(k, s, Thread(t, Ok)), t)
  {
    var v := Look(s, t);
    assert LocalOk(v) && SecOk(k, v, false);
    SelfHelps(k, v, t);
    LocalMoves(k, v, Ok);
    ThreadWake(k, s, t, Ok);
    assert Look(Store(s, t, LocalStep(k, v, Ok)), t) == LocalStep(k, v, Ok);
  }

  lemma HelpfulCard(k: Card, s: State, t: nat)
    requires WakeOk(k, s) && t < |s.clients| && Waiting(s.clients[t].pc) && Helpful(Look(s, t), t).Hardware?
    ensures var e := Helpful(Look(s, t), t).e;
      && CardEnabled(s.g.dev, e) && !e.Poke?
      && WakeOk(k, s.(g := CardStep(k, s.g, e))) && Nearer(s, s.(g := CardStep(k, s.g, e)), t)
  {
    assert Hopeful(Look(s, t));
    CardHelps(k, Look(s, t), t);
    CardWake(k, s, Helpful(Look(s, t), t).e);
  }

  lemma HelpfulIrq(k: Card, s: State, t: nat)
    requires WakeOk(k, s) && t < |s.clients| && Waiting(s.clients[t].pc) && Helpful(Look(s, t), t).Irq?
    ensures IrqEnabled(s, Atomic) && WakeOk(k, IrqStep(s, Atomic)) && Nearer(s, IrqStep(s, Atomic), t)
  {
    assert Hopeful(Look(s, t));
    IrqWakes(k, s);
  }

  lemma HelpfulStep(k: Card, s: State, t: nat)
    requires WakeOk(k, s) && t < |s.clients| && Waiting(s.clients[t].pc)
    ensures var e := Helpful(Look(s, t), t);
      Enabled(s, e) && WakeOk(k, Next(k, s, e)) && Nearer(s, Next(k, s, e), t)
  {
    match Helpful(Look(s, t), t)
    case Thread(_, _) => HelpfulThread(k, s, t);
    case Hardware(_) => HelpfulCard(k, s, t);
    case Irq(_) => HelpfulIrq(k, s, t);
  }

  /** An event of the card, the handler or client `t` itself. */
  predicate Useful(e: Event, t: nat) { e == Thread(t, Ok) || e == Irq(Atomic) || (e.Hardware? && !e.e.Poke?) }

  function Helping(t: nat): (State, Event) -> bool { (s: State, e: Event) => Useful(e, t) }

  lemma RankIsSmall(v: View)
    ensures 0 < Rank(v) <= 7
  {}

  lemma HelpfulIsUseful(k: Card, s: State, t: nat)
    requires WakeOk(k, s) && t < |s.clients| && Waiting(s.clients[t].pc)
    ensures Useful(Helpful(Look(s, t), t), t)
  {
    if Helpful(Look(s, t), t).Hardware? { HelpfulCard(k, s, t); }
  }

  /** One event brings a waiting client nearer. */
  lemma Helped(k: Card, s: State, t: nat) returns (e: Event)
    requires WakeOk(k, s) && t < |s.clients| && Waiting(s.clients[t].pc)
    ensures Enabled(s, e) && Useful(e, t) && WakeOk(k, Next(k, s, e)) && Nearer(s, Next(k, s, e), t)
    ensures 0 < Rank(Look(s, t)) <= 7
  {
    e := Helpful(Look(s, t), t);
    HelpfulStep(k, s, t);
    HelpfulIsUseful(k, s, t);
    RankIsSmall(Look(s, t));
  }

  lemma {:induction false} Recipe(k: Card, s: State, t: nat) returns (es: seq<Event>, s': State)
    requires WakeOk(k, s) && t < |s.clients| && Waiting(s.clients[t].pc)
    ensures Along(k, s, es, s', Helping(t)) && |es| <= Rank(Look(s, t)) <= 7
    ensures WakeOk(k, s') && t < |s'.clients| && s'.clients[t].pc == AfterOp(Look(s, t).j)
    decreases Rank(Look(s, t))
  {
    var e := Helped(k, s, t);
    es, s' := [], Next(k, s, e);
    if Waiting(s'.clients[t].pc) { es, s' := Recipe(k, s', t); }
    AlongMore(k, s, e, es, s', Helping(t));
    es := [e] + es;
  }

  /**
   * Progress: from every reachable state of a paced run a waiting or polling client gets past
   * its wait within seven events of the card, the handler and itself.
   */
  lemma WaitEnds(k: Card, s: State, t: nat) returns (es: seq<Event>, s': State)
    requires WakeOk(k, s) && t < |s.clients| && Waiting(s.clients[t].pc)
    ensures Along(k, s, es, s', Helping(t)) && |es| <= 7
    ensures WakeOk(k, s') && t < |s'.clients| && s'.clients[t].pc == AfterOp(Look(s, t).j)
  {
    es, s' := Recipe(k, s, t);
  }

  /** In every state of a paced run a sleeper has a busy card, an interrupt owed or pending, or its wake-up. */
  lemma SleeperHopes(k: Card, tr: seq<State>, ev: seq<Event>, i: nat, t: nat)
    requires k.Good() && PacedRun(k, tr, ev) && i <= |ev| && t < |tr[i].clients|
    requires tr[i].clients[t].pc == Wait(Sleep)
    ensures tr[i].clients[t].woken || tr[i].g.dev.mmio.Some? || tr[i].g.dev.dma.Some?
      || tr[i].g.dev.owed != 0 || tr[i].g.dev.istatus != 0
    ensures !Dead(tr[i], t)
  {
    NoLostWakeup(k, tr, ev, i);
    assert Hopeful(Look(tr[i], t));
  }

  // ----- what a lost wake-up means -----

  /** Asleep, not woken, the card idle and nothing pending. */
  ghost predicate Dead(s: State, t: nat) {
    && SemOk(s) && t < |s.clients|
    && s.clients[t].pc == Wait(Sleep) && !s.clients[t].woken
    && s.g.dev.mmio.None? && s.g.dev.dma.None? && s.g.dev.owed == 0 && s.g.dev.istatus == 0 && s.irq.Quiet?
  }

  /** A lost wake-up is for ever: without a signal the client sleeps on, holding the card. */
  lemma DeadStays(k: Card, s: State, t: nat, e: Event)
    requires Dead(s, t) && Enabled(s, e) && e != Thread(t, Signal)
    ensures Dead(Next(k, s, e), t)
  {
    SemStep(k, s, e);
    match e
    case Thread(u, ch) =>
      assert u != t && Inside(s, t) && !Inside(s, u);
      LocalFramed(k, Look(s, u), ch);
    case User(u, _) => assert u != t;
    case Hardware(c) => assert c.Poke?;
    case Irq(i) =>
  }

  lemma {:induction false} DeadForever(k: Card, tr: seq<State>, ev: seq<Event>, t: nat, i: nat, j: nat)
    requires Run(k, tr, ev) && i <= j <= |ev| && Dead(tr[i], t)
    requires forall n :: i <= n < j ==> ev[n] != Thread(t, Signal)
    ensures Dead(tr[j], t) && tr[j].g.sem == 0
  {
    if i < j {
      DeadForever(k, tr, ev, t, i, j - 1);
      DeadStays(k, tr[j - 1], t, ev[j - 1]);
    }
    assert Inside(tr[j], t);
  }
}
