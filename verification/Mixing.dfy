/**
 * Why the two interrupt modes must not be mixed: a writer that starts an interrupt-driven
 * operation can come to sleep on it for ever, with an uninterrupted handler, exactly if an
 * interrupt of the other mode is outstanding when it starts.
 */
module Mixing {
  import opened Types
  import opened Machine
  import opened Semaphore
  import opened Buffers
  import opened Frames
  import opened Isolation
  import opened Paths
  import opened Wakeups

  // ----- the wait that follows a start -----

  predicate WaitsOn(s: State, t: nat) { WellFormed(s) && t < |s.clients| && Waiting(s.clients[t].pc) }

  /** Client `t` waits, and the event is not part of an interrupted handler. */
  function Sitting(t: nat): (State, Event) -> bool { (s: State, e: Event) => Whole(e) && WaitsOn(s, t) }

  ghost predicate ComesTo(k: Card, s: State, s': State, t: nat) { Comes(k, s, s', Sitting(t)) }

  // ----- the two interrupt bits, in every run -----

  /** Neither bit, one or both. */
  predicate Word(x: bv32) { x & 0xfffffefe == 0 }

  /** The card's words hold nothing else, and the handler deals with something still pending. */
  predicate BitsOk(h: Handler, istatus: bv32, owed: bv32) {
    && Word(istatus) && Word(owed)
    && (h.Quiet? || (h.status != 0 && h.status & istatus == h.status))
  }

  predicate Bits(s: State) { BitsOk(s.irq, s.g.dev.istatus, s.g.dev.owed) }

  lemma WordsJoin(a: bv32, b: bv32)
    requires Word(a) && Word(b)
    ensures Word(a | b)
  {}

  lemma WordsLose(a: bv32, st: bv32)
    requires Word(a)
    ensures Word(a & !st)
  {}

  lemma StillPending(a: bv32, b: bv32, st: bv32)
    requires st & a == st
    ensures st & (a | b) == st
  {}

  lemma FinishBits(h: Handler, d: Device, dma: bool)
    requires BitsOk(h, d.istatus, d.owed)
    ensures BitsOk(h, FinishStep(d, dma).istatus, FinishStep(d, dma).owed)
  {
    WordsJoin(d.owed, DoneBit(!dma));
  }

  lemma RaiseWords(d: Device)
    requires Word(d.istatus) && Word(d.owed)
    ensures Word(RaiseStep(d).istatus)
  {
    WordsJoin(d.istatus, d.owed);
  }

  lemma RaiseBits(h: Handler, d: Device)
    requires BitsOk(h, d.istatus, d.owed)
    ensures BitsOk(h, RaiseStep(d).istatus, RaiseStep(d).owed)
  {
    RaiseWords(d);
    if !h.Quiet? { StillPending(d.istatus, d.owed, h.status); }
  }

  lemma TransformRaises(k: Card, g: Shared, dma: bool)
    ensures SameRaises(g.dev, TransformStep(k, g, dma).dev)
  {}

  lemma CardBits(k: Card, s: State, e: CardEvent)
    requires Bits(s) && CardEnabled(s.g.dev, e)
    ensures Bits(s.(g := CardStep(k, s.g, e)))
  {
    match e
    case Poke(_, _) =>
    case Transform(dma) => TransformRaises(k, s.g, dma);
    case Finish(dma) => FinishBits(s.irq, s.g.dev, dma);
    case Raise => RaiseBits(s.irq, s.g.dev);
  }

  lemma Itself(a: bv32)
    ensures a & a == a
  {}

  lemma IrqBits(s: State, i: IrqEvent)
    requires Bits(s) && IrqEnabled(s, i)
    ensures Bits(IrqStep(s, i))
  {
    Itself(s.g.dev.istatus);
    WordsLose(s.g.dev.istatus, if s.irq.Quiet? then s.g.dev.istatus else s.irq.status);
  }

  lemma BitsStep(k: Card, s: State, e: Event)
    requires Bits(s) && Enabled(s, e)
    ensures Bits(Next(k, s, e))
  {
    match e
    case Thread(t, ch) => LocalFramed(k, Look(s, t), ch);
    case User(_, _) =>
    case Hardware(c) => CardBits(k, s, c);
    case Irq(i) => IrqBits(s, i);
  }

  lemma {:induction false} BitsRun(k: Card, tr: seq<State>, ev: seq<Event>, i: nat)
    requires FromStart(k, tr, ev) && i <= |ev|
    ensures Bits(tr[i])
  {
    if i > 0 {
      BitsRun(k, tr, ev, i - 1);
      BitsStep(k, tr[i - 1], ev[i - 1]);
    }
  }

  // ----- nothing outstanding: the wake-up comes -----

  /** While a client waits nobody else can start the card. */
  lemma NobodyStarts(k: Card, s: State, e: Event, t: nat)
    requires WakeOk(k, s) && Enabled(s, e) && WaitsOn(s, t)
    ensures Unmixed(s, e)
  {
    assert Inside(s, t);
    if e.Thread? && e.t != t { assert !Inside(s, e.t); }
  }

  lemma {:induction false} WakesOn(k: Card, s: State, es: seq<Event>, s': State, t: nat)
    requires WakeOk(k, s) && Along(k, s, es, s', Sitting(t))
    ensures WakeOk(k, s')
    decreases |es|
  {
    if es != [] {
      NobodyStarts(k, s, es[0], t);
      WakeStep(k, s, es[0]);
      WakesOn(k, Next(k, s, es[0]), es[1..], s', t);
    }
  }

  lemma NotDead(k: Card, s: State, t: nat)
    requires WakeOk(k, s) && t < |s.clients|
    ensures !Dead(s, t)
  {
    assert Hopeful(Look(s, t));
  }

  // ----- something outstanding: it may be lost -----

  /** The client's operation is under way and will raise its interrupt. */
  predicate Engaged(v: View) {
    && v.j.isI && OpIn(v.g.dev, v.j.isM) && WillRaise(v.g.dev, v.j.isM)
    && !(if v.j.isM then v.g.dev.mmio.value else v.g.dev.dma.value).done
  }

  lemma StartEngages(k: Card, v: View)
    requires LocalOk(v) && SecOk(k, v, false) && v.j.isI && (v.c.pc == Mmio(MStart) || v.c.pc == Dma(DCmd))
    ensures var v' := LocalStep(k, v, Ok);
      && v'.c.pc == Wait(First) && v'.j == v.j && v'.c.h == v.c.h && Engaged(v')
      && (Outstanding(v'.g.dev, !v.j.isM) <==> Outstanding(v.g.dev, !v.j.isM))
  {
    StatusAsks(v.j);
  }

  /** One statement of the wait, the card still busy. */
  predicate Tested(v: View, v': View) {
    && v'.g == v.g && v'.j == v.j && v'.c.h == v.c.h
    && match v.c.pc
       case Wait(First) => v'.c.pc == Wait(Enqueue)
       case Wait(Enqueue) => v'.c.pc == Wait(Check) && !v'.c.woken
       case _ => v'.c.pc == Wait(Sleep) && v'.c.woken == v.c.woken
  }

  lemma TestView(k: Card, v: View)
    requires LocalOk(v) && SecOk(k, v, false) && Engaged(v) && v.c.pc.Wait? && v.c.pc != Wait(Sleep)
    ensures ThreadEnabled(v, Ok) && Tested(v, LocalStep(k, v, Ok))
  {
    assert LocalStep(k, v, Ok) == WaitStep(v, v.c.pc.wait, Ok);
  }

  lemma Tests(k: Card, s: State, t: nat) returns (s': State)
    requires IsoOk(k, s, NOBODY) && WaitsOn(s, t) && Engaged(Look(s, t))
    requires s.clients[t].pc.Wait? && s.clients[t].pc != Wait(Sleep)
    ensures ComesTo(k, s, s', t) && IsoOk(k, s', NOBODY) && WaitsOn(s', t)
    ensures Tested(Look(s, t), Look(s', t)) && s'.g == s.g && s'.irq == s.irq
  {
    var v := Look(s, t);
    assert LocalOk(v) && SecOk(k, v, false);
    TestView(k, v);
    IsoStep(k, s, NOBODY, Thread(t, Ok));
    OneEvent(k, s, Thread(t, Ok), Sitting(t));
    s' := Next(k, s, Thread(t, Ok));
    assert Look(s', t) == LocalStep(k, v, Ok);
  }

  /** Asleep before the card has done anything. */
  lemma FallsAsleep(k: Card, s: State, t: nat) returns (s': State)
    requires IsoOk(k, s, NOBODY) && WaitsOn(s, t) && s.clients[t].pc == Wait(First) && Engaged(Look(s, t))
    ensures ComesTo(k, s, s', t) && IsoOk(k, s', NOBODY) && s'.g == s.g && s'.irq == s.irq && WaitsOn(s', t)
    ensures s'.clients[t].pc == Wait(Sleep) && !s'.clients[t].woken && Look(s', t).j == Look(s, t).j
  {
    var s1 := Tests(k, s, t);
    var s2 := Tests(k, s1, t);
    s' := Tests(k, s2, t);
    Then(k, s1, s2, s', Sitting(t));
    Then(k, s, s1, s', Sitting(t));
  }

  // ----- the card finishes, and both interrupts are raised before the handler runs -----

  predicate Has(bits: bv32, isM: bool) { bits & DoneBit(isM) != 0 }

  lemma OrHas(a: bv32, b: bv32, isM: bool)
    requires Has(a, isM)
    ensures Has(a | b, isM) && Has(b | a, isM)
  {}

  lemma NowHas(a: bv32, isM: bool)
    ensures Has(a | DoneBit(isM), isM)
  {}

  lemma FinishKeeps(d: Device, dma: bool, isM: bool)
    requires OpIn(d, !dma) && Outstanding(d, isM)
    ensures Outstanding(FinishStep(d, dma), isM)
  {
    if Has(d.owed, isM) {
      OrHas(d.owed, DoneBit(!dma), isM);
    } else if isM == !dma {
      NowHas(d.owed, isM);
    }
  }

  lemma TransformKeeps(k: Card, g: Shared, dma: bool, isM: bool)
    requires Outstanding(g.dev, isM)
    ensures Outstanding(TransformStep(k, g, dma).dev, isM)
  {
    TransformRaises(k, g, dma);
  }

  lemma RaiseKeeps(d: Device, isM: bool)
    requires Outstanding(d, isM)
    ensures Outstanding(RaiseStep(d), isM)
  {
    if Has(d.owed, isM) {
      OrHas(d.owed, d.istatus, isM);
    } else if Has(d.istatus, isM) {
      OrHas(d.istatus, d.owed, isM);
    }
  }

  /** Client `t` sleeps, and an interrupt of either mode is outstanding. */
  predicate Doomed(s: State, t: nat) {
    && WaitsOn(s, t) && s.clients[t].pc == Wait(Sleep) && !s.clients[t].woken && s.irq.Quiet?
    && Outstanding(s.g.dev, true) && Outstanding(s.g.dev, false)
  }

  lemma CardComes(k: Card, s: State, t: nat, e: CardEvent)
    requires WaitsOn(s, t) && CardEnabled(s.g.dev, e)
    ensures ComesTo(k, s, s.(g := CardStep(k, s.g, e)), t)
  {
    OneEvent(k, s, Hardware(e), Sitting(t));
  }

  lemma CardKeepsDoom(k: Card, s: State, t: nat, e: CardEvent)
    requires Doomed(s, t) && CardEnabled(s.g.dev, e) && !e.Poke?
    ensures Doomed(s.(g := CardStep(k, s.g, e)), t)
    ensures ComesTo(k, s, s.(g := CardStep(k, s.g, e)), t)
  {
    CardComes(k, s, t, e);
    match e
    case Transform(dma) =>
      TransformKeeps(k, s.g, dma, true);
      TransformKeeps(k, s.g, dma, false);
    case Finish(dma) =>
      FinishKeeps(s.g.dev, dma, true);
      FinishKeeps(s.g.dev, dma, false);
    case Raise =>
      RaiseKeeps(s.g.dev, true);
      RaiseKeeps(s.g.dev, false);
  }

  /** What the card still has to do for its operations. */
  function Work(d: Device): nat {
    (if d.mmio.None? then 0 else if d.mmio.value.done then 1 else 2)
    + if d.dma.None? then 0 else if d.dma.value.done then 1 else 2
  }

  function NextWork(d: Device): CardEvent
    requires Work(d) > 0
  {
    if d.mmio.Some? then if d.mmio.value.done then Finish(false) else Transform(false)
    else if d.dma.value.done then Finish(true) else Transform(true)
  }

  lemma LessWork(k: Card, g: Shared)
    requires Work(g.dev) > 0
    ensures CardEnabled(g.dev, NextWork(g.dev)) && Work(CardStep(k, g, NextWork(g.dev)).dev) < Work(g.dev)
  {}

  /** The card finishes all it has been given. */
  lemma {:induction false} WorksOff(k: Card, s: State, t: nat) returns (s': State)
    requires Doomed(s, t)
    ensures ComesTo(k, s, s', t) && Doomed(s', t) && s'.clients == s.clients && s'.jobs == s.jobs && s'.g.sem == s.g.sem
    ensures s'.g.dev.mmio.None? && s'.g.dev.dma.None?
    decreases Work(s.g.dev)
  {
    if Work(s.g.dev) == 0 {
      s' := s;
      Stays(k, s, Sitting(t));
    } else {
      var e := NextWork(s.g.dev);
      LessWork(k, s.g);
      CardKeepsDoom(k, s, t, e);
      s' := WorksOff(k, s.(g := CardStep(k, s.g, e)), t);
      FirstThen(k, s, Hardware(e), s', Sitting(t));
    }
  }

  /** And raises all it owes. */
  lemma RaisesAll(k: Card, s: State, t: nat) returns (s': State)
    requires Doomed(s, t) && s.g.dev.mmio.None? && s.g.dev.dma.None?
    ensures ComesTo(k, s, s', t) && Doomed(s', t) && s'.clients == s.clients && s'.jobs == s.jobs && s'.g.sem == s.g.sem
    ensures s'.g.dev.mmio.None? && s'.g.dev.dma.None? && s'.g.dev.owed == 0
  {
    if s.g.dev.owed == 0 {
      s' := s;
      Stays(k, s, Sitting(t));
    } else {
      CardKeepsDoom(k, s, t, Raise);
      s' := s.(g := CardStep(k, s.g, Raise));
    }
  }

  /** A word with both bits is neither of the two the handler knows. */
  lemma BothBits(bits: bv32)
    requires Has(bits, true) && Has(bits, false)
    ensures bits != MMIO_DONE && bits != DMA_DONE && bits != 0
  {}

  lemma NothingLeft(bits: bv32)
    ensures bits & !bits == 0
  {}

  /** The handler reads both interrupts at once, wakes nobody and acknowledges both. */
  lemma Swallowed(k: Card, s: State, t: nat) returns (s': State)
    requires Doomed(s, t) && SemOk(s) && s.g.dev.mmio.None? && s.g.dev.dma.None? && s.g.dev.owed == 0
    ensures ComesTo(k, s, s', t) && Dead(s', t)
  {
    BothBits(s.g.dev.istatus);
    NothingLeft(s.g.dev.istatus);
    s' := IrqStep(s, Atomic);
    IrqKeepsSem(s, Atomic);
    OneEvent(k, s, Irq(Atomic), Sitting(t));
  }

  /** From the first test of the wait, with an interrupt of the other mode outstanding, to the end of hope. */
  lemma Lost(k: Card, s: State, t: nat) returns (s': State)
    requires IsoOk(k, s, NOBODY) && WaitsOn(s, t) && s.clients[t].pc == Wait(First) && s.irq.Quiet?
    requires Engaged(Look(s, t)) && Outstanding(s.g.dev, !Look(s, t).j.isM)
    ensures ComesTo(k, s, s', t) && Dead(s', t)
  {
    var s1 := FallsAsleep(k, s, t);
    assert Doomed(s1, t);
    var s2 := WorksOff(k, s1, t);
    var s3 := RaisesAll(k, s2, t);
    Then(k, s1, s2, s3, Sitting(t));
    ComesKeepsSem(k, s1, s3, Sitting(t));
    s' := Swallowed(k, s3, t);
    Then(k, s1, s3, s', Sitting(t));
    Then(k, s, s1, s', Sitting(t));
  }

  // ----- exactly then -----

  lemma NeverDead(k: Card, s: State, s': State, t: nat)
    requires WakeOk(k, s) && ComesTo(k, s, s', t)
    ensures !Dead(s', t)
  {
    var es :| Along(k, s, es, s', Sitting(t));
    WakesOn(k, s, es, s', t);
    if t < |s'.clients| { NotDead(k, s', t); }
  }

  /** Of a word without the other bit. */
  lemma OneBit(x: bv32, isM: bool)
    requires Word(x) && !Has(x, !isM)
    ensures x == 0 || x == DoneBit(isM)
  {}

  lemma StartIsOnly(k: Card, v: View)
    requires LocalOk(v) && SecOk(k, v, false) && v.j.isI && (v.c.pc == Mmio(MStart) || v.c.pc == Dma(DCmd))
    requires Word(v.g.dev.owed) && Word(v.g.dev.istatus) && !Outstanding(v.g.dev, !v.j.isM)
    ensures Only(LocalStep(k, v, Ok).g.dev, v.j.isM)
  {
    StartShape(k, v, Ok);
    OneBit(v.g.dev.owed, v.j.isM);
    OneBit(v.g.dev.istatus, v.j.isM);
  }

  /** The others are not waiting: whatever there was before, the start begins anew. */
  lemma StartIsPaced(k: Card, s: State, t: nat)
    requires IsoOk(k, s, NOBODY) && Bits(s) && s.irq.Quiet? && t < |s.clients| && Look(s, t).j.isI
    requires s.clients[t].pc == Mmio(MStart) || s.clients[t].pc == Dma(DCmd)
    requires !Outstanding(s.g.dev, !Look(s, t).j.isM)
    ensures WakeOk(k, Next(k, s, Thread(t, Ok)))
  {
    var v, s' := Look(s, t), Next(k, s, Thread(t, Ok));
    assert LocalOk(v) && SecOk(k, v, false);
    StartIsOnly(k, v);
    StartEngages(k, v);
    IsoStep(k, s, NOBODY, Thread(t, Ok));
    forall u | 0 <= u < |s.clients|
      ensures Hopeful(Look(s', u))
    {
      if u != t { assert Inside(s, t) && !Inside(s, u) && s'.clients[u] == s.clients[u]; }
    }
  }

  lemma StartGoes(k: Card, s: State, t: nat)
    requires IsoOk(k, s, NOBODY) && t < |s.clients| && Look(s, t).j.isI
    requires s.clients[t].pc == Mmio(MStart) || s.clients[t].pc == Dma(DCmd)
    ensures Enabled(s, Thread(t, Ok))
    ensures var s' := Next(k, s, Thread(t, Ok));
      && IsoOk(k, s', NOBODY) && WaitsOn(s', t) && s'.clients[t].pc == Wait(First) && s'.irq == s.irq
      && Look(s', t).j == Look(s, t).j && Engaged(Look(s', t))
      && (Outstanding(s'.g.dev, !Look(s, t).j.isM) <==> Outstanding(s.g.dev, !Look(s, t).j.isM))
  {
    var v := Look(s, t);
    assert LocalOk(v) && SecOk(k, v, false);
    StartEngages(k, v);
    IsoStep(k, s, NOBODY, Thread(t, Ok));
    assert Look(Next(k, s, Thread(t, Ok)), t) == LocalStep(k, v, Ok);
  }

  /**
   * In every run: a client that starts an interrupt-driven operation while the handler is idle
   * can come to sleep for ever on it, with an uninterrupted handler, if and only if an interrupt
   * of the other mode is outstanding at that moment.
   */
  lemma LostExactly(k: Card, tr: seq<State>, ev: seq<Event>, i: nat, t: nat)
    requires k.Good() && FromStart(k, tr, ev) && i <= |ev| && tr[i].irq.Quiet? && WellFormed(tr[i])
    requires t < |tr[i].clients| && Look(tr[i], t).j.isI
    requires tr[i].clients[t].pc == Mmio(MStart) || tr[i].clients[t].pc == Dma(DCmd)
    ensures Enabled(tr[i], Thread(t, Ok))
    ensures (exists s' :: ComesTo(k, Next(k, tr[i], Thread(t, Ok)), s', t) && Dead(s', t))
      <==> Outstanding(tr[i].g.dev, !Look(tr[i], t).j.isM)
  {
    IsoRun(k, tr, ev, i);
    BitsRun(k, tr, ev, i);
    StartGoes(k, tr[i], t);
    var s := Next(k, tr[i], Thread(t, Ok));
    if Outstanding(s.g.dev, !Look(s, t).j.isM) {
      var s' := Lost(k, s, t);
    } else {
      StartIsPaced(k, tr[i], t);
      forall s' | ComesTo(k, s, s', t)
        ensures !Dead(s', t)
      {
        NeverDead(k, s, s', t);
      }
    }
  }
}
