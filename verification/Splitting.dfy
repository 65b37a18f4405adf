/**
 * Why the handler must not be interrupted between its wake-up and its acknowledgement: if it may
 * be, a writer that starts an interrupt-driven operation can come to sleep on it for ever exactly
 * if, when it starts, some interrupt is still to be raised or acknowledged, other than one of
 * the other mode that the handler is already dealing with.
 */
module Splitting {
  import opened Types
  import opened Machine
  import opened Semaphore
  import opened Buffers
  import opened Frames
  import opened Isolation
  import opened Paths
  import opened Wakeups
  import opened Mixing

  // ----- what is left over from before -----

  /** Pending, and not what the handler is about to acknowledge. */
  function Unseen(h: Handler, istatus: bv32): bv32 { if h.Quiet? then istatus else istatus & !h.status }

  /** An interrupt is left over that can be taken for the operation's own, or joined with it. */
  predicate LeftOver(s: State, isM: bool) {
    var d := s.g.dev;
    WillRaise(d, !isM) || d.owed != 0 || Has(d.istatus, isM) || Has(Unseen(s.irq, d.istatus), !isM)
  }

  /** Client `t` waits; the handler may be interrupted. */
  function Sat(t: nat): (State, Event) -> bool { (s: State, e: Event) => WaitsOn(s, t) }

  ghost predicate MayCome(k: Card, s: State, s': State, t: nat) { Comes(k, s, s', Sat(t)) }

  // ----- nothing left over: the wake-up comes -----

  /**
   * Where the interrupt of the awaited operation is, `busy` as long as the card works: it is
   * owed or pending once, alone but for one of the other mode that the handler has read.
   */
  predicate Clean(h: Handler, istatus: bv32, owed: bv32, busy: bool, own: bv32, other: bv32) {
    && (owed == 0 || owed == own)
    && (busy || owed != 0 ==> istatus == 0 || istatus == other) && (busy ==> owed == 0)
    && match h
       case Quiet => istatus == 0 || istatus == own
       case Seen(st) => (st == other && (istatus == other || istatus == own | other)) || (st == own && istatus == own)
       case Woke(st) => (st == other && (istatus == other || istatus == own | other)) || (st == own && istatus == own)
  }

  predicate CleanAt(h: Handler, d: Device, isM: bool) {
    !WillRaise(d, !isM) && Clean(h, d.istatus, d.owed, OpIn(d, isM), DoneBit(isM), DoneBit(!isM))
  }

  /** The card works, or an interrupt is on its way for which the handler has still to wake somebody. */
  predicate Coming(h: Handler, d: Device, isM: bool) {
    OpIn(d, isM) || d.owed != 0 || (Has(d.istatus, isM) && h != Woke(DoneBit(isM)))
  }

  /** A sleeper not yet woken has something coming. */
  predicate Hoping(c: Client, coming: bool) {
    && (c.pc == Wait(Check) || c.pc == Wait(Sleep) ==> c.queued)
    && (c.pc == Wait(Sleep) && !c.woken ==> coming)
  }

  ghost predicate Awaited(k: Card, s: State, t: nat) {
    && IsoOk(k, s, NOBODY)
    && (WaitsOn(s, t) ==>
         && Look(s, t).j.isI && CleanAt(s.irq, s.g.dev, Look(s, t).j.isM)
         && Hoping(s.clients[t], Coming(s.irq, s.g.dev, Look(s, t).j.isM)))
  }

  lemma WaitHopes(k: Card, h: Handler, v: View, pc: WaitPC, ch: Choice)
    requires LocalOk(v) && SecOk(k, v, false) && v.c.pc == Wait(pc) && ThreadEnabled(v, ch)
    requires Hoping(v.c, Coming(h, v.g.dev, v.j.isM))
    ensures Hoping(WaitStep(v, pc, ch).c, Coming(h, v.g.dev, v.j.isM))
  {}

  lemma OwnHopes(k: Card, s: State, t: nat, ch: Choice)
    requires Awaited(k, s, t) && WaitsOn(s, t) && ThreadEnabled(Look(s, t), ch)
    ensures var v := LocalStep(k, Look(s, t), ch);
      v.g == s.g && v.j == Look(s, t).j && v.c.h == s.clients[t].h && Hoping(v.c, Coming(s.irq, s.g.dev, v.j.isM))
  {
    var v := Look(s, t);
    assert LocalOk(v) && SecOk(k, v, false);
    WaitHopes(k, s.irq, v, v.c.pc.wait, ch);
  }

  lemma OwnAwaits(k: Card, s: State, t: nat, ch: Choice)
    requires Awaited(k, s, t) && WaitsOn(s, t) && ThreadEnabled(Look(s, t), ch)
    ensures Awaited(k, Next(k, s, Thread(t, ch)), t)
  {
    OwnHopes(k, s, t, ch);
    var v := LocalStep(k, Look(s, t), ch);
    IsoStep(k, s, NOBODY, Thread(t, ch));
    assert Look(Store(s, t, v), t) == v;
  }

  /** Everything the client's hope rests on is as it was. */
  predicate SameHope(s: State, s': State, t: nat)
    requires WellFormed(s) && WellFormed(s') && t < |s.clients| && t < |s'.clients|
  {
    var v, v' := Look(s, t), Look(s', t);
    && v'.c == v.c && v'.j == v.j && s'.irq == s.irq && SameRaises(s.g.dev, s'.g.dev)
    && OpIn(s'.g.dev, true) == OpIn(s.g.dev, true) && OpIn(s'.g.dev, false) == OpIn(s.g.dev, false)
  }

  lemma SameAwaits(k: Card, s: State, s': State, t: nat)
    requires Awaited(k, s, t) && WaitsOn(s, t) && IsoOk(k, s', NOBODY) && t < |s'.clients| && SameHope(s, s', t)
    ensures Awaited(k, s', t)
  {}

  lemma OutsideSame(k: Card, v: View, ch: Choice)
    requires !InSection(v.c.pc)
    ensures var d, d' := v.g.dev, LocalStep(k, v, ch).g.dev;
      SameRaises(d, d') && OpIn(d', true) == OpIn(d, true) && OpIn(d', false) == OpIn(d, false)
  {
    LocalFramed(k, v, ch);
  }

  lemma OtherAwaits(k: Card, s: State, t: nat, u: nat, ch: Choice)
    requires Awaited(k, s, t) && WaitsOn(s, t) && u < |s.clients| && u != t && ThreadEnabled(Look(s, u), ch)
    ensures Awaited(k, Next(k, s, Thread(u, ch)), t)
  {
    assert Inside(s, t) && !Inside(s, u);
    IsoStep(k, s, NOBODY, Thread(u, ch));
    OutsideSame(k, Look(s, u), ch);
    SameAwaits(k, s, Next(k, s, Thread(u, ch)), t);
  }

  lemma CleanFinish(h: Handler, istatus: bv32, isM: bool)
    requires Clean(h, istatus, 0, true, DoneBit(isM), DoneBit(!isM))
    ensures Clean(h, istatus, 0 | DoneBit(isM), false, DoneBit(isM), DoneBit(!isM))
    ensures 0 | DoneBit(isM) != 0
  {}

  lemma FinishAwaits(k: Card, h: Handler, v: View, dma: bool)
    requires LocalOk(v) && SecOk(k, v, false) && v.c.pc.Wait? && v.j.isI
    requires CleanAt(h, v.g.dev, v.j.isM) && CardEnabled(v.g.dev, Finish(dma))
    ensures var d := FinishStep(v.g.dev, dma);
      CleanAt(h, d, v.j.isM) && (Coming(h, v.g.dev, v.j.isM) ==> Coming(h, d, v.j.isM))
  {
    if dma == !v.j.isM { CleanFinish(h, v.g.dev.istatus, v.j.isM); }
  }

  lemma RaiseClean(h: Handler, d: Device, isM: bool)
    requires CleanAt(h, d, isM) && CardEnabled(d, Raise)
    ensures CleanAt(h, RaiseStep(d), isM)
  {}

  lemma RaiseComes(h: Handler, d: Device, isM: bool)
    requires CleanAt(h, d, isM) && CardEnabled(d, Raise)
    ensures Coming(h, RaiseStep(d), isM)
  {}

  lemma CardSame(k: Card, s: State, t: nat, e: CardEvent)
    requires WellFormed(s) && t < |s.clients| && CardEnabled(s.g.dev, e) && (e.Poke? || e.Transform?)
    ensures SameHope(s, s.(g := CardStep(k, s.g, e)), t)
  {}

  lemma CardHopes(k: Card, h: Handler, v: View, e: CardEvent)
    requires LocalOk(v) && SecOk(k, v, false) && v.c.pc.Wait? && v.j.isI && (e.Finish? || e.Raise?)
    requires CleanAt(h, v.g.dev, v.j.isM) && Hoping(v.c, Coming(h, v.g.dev, v.j.isM)) && CardEnabled(v.g.dev, e)
    ensures var d := CardStep(k, v.g, e).dev; CleanAt(h, d, v.j.isM) && Hoping(v.c, Coming(h, d, v.j.isM))
  {
    match e
    case Finish(dma) => FinishAwaits(k, h, v, dma);
    case Raise =>
      RaiseClean(h, v.g.dev, v.j.isM);
      RaiseComes(h, v.g.dev, v.j.isM);
  }

  lemma CardAwaits(k: Card, s: State, t: nat, e: CardEvent)
    requires Awaited(k, s, t) && WaitsOn(s, t) && CardEnabled(s.g.dev, e)
    ensures Awaited(k, s.(g := CardStep(k, s.g, e)), t)
  {
    CardIso(k, s, NOBODY, e);
    if e.Poke? || e.Transform? {
      CardSame(k, s, t, e);
      SameAwaits(k, s, s.(g := CardStep(k, s.g, e)), t);
    } else {
      assert LocalOk(Look(s, t)) && SecOk(k, Look(s, t), false);
      CardHopes(k, s.irq, Look(s, t), e);
    }
  }

  lemma CleanRead(istatus: bv32, owed: bv32, busy: bool, isM: bool)
    requires Clean(Quiet, istatus, owed, busy, DoneBit(isM), DoneBit(!isM)) && istatus != 0
    ensures Clean(Seen(istatus), istatus, owed, busy, DoneBit(isM), DoneBit(!isM))
  {}

  lemma ReadAwaits(k: Card, s: State, t: nat)
    requires Awaited(k, s, t) && WaitsOn(s, t) && IrqEnabled(s, Read)
    ensures Awaited(k, IrqReadStep(s), t)
  {
    var d, isM := s.g.dev, Look(s, t).j.isM;
    CleanRead(d.istatus, d.owed, OpIn(d, isM), isM);
    IrqIso(k, s, NOBODY, Read);
    assert Look(IrqReadStep(s), t) == Look(s, t);
  }

  lemma WakeAwaits(k: Card, s: State, t: nat)
    requires Awaited(k, s, t) && WaitsOn(s, t) && IrqEnabled(s, Wake)
    ensures Awaited(k, IrqWakeStep(s), t)
  {
    IrqIso(k, s, NOBODY, Wake);
    assert Look(IrqWakeStep(s), t).j == Look(s, t).j;
  }

  /** The status register after the acknowledgement of `st`. */
  function Acked(d: Device, st: bv32): Device { d.(istatus := d.istatus & !st) }

  /** What the acknowledgement takes away is what the handler read. */
  lemma AckClean(st: bv32, d: Device, isM: bool)
    requires CleanAt(Woke(st), d, isM)
    ensures CleanAt(Quiet, Acked(d, st), isM)
  {}

  lemma AckComing(st: bv32, d: Device, isM: bool)
    requires CleanAt(Woke(st), d, isM) && Coming(Woke(st), d, isM)
    ensures Coming(Quiet, Acked(d, st), isM)
  {}

  lemma AckHopes(h: Handler, v: View)
    requires h.Woke? && CleanAt(h, v.g.dev, v.j.isM) && Hoping(v.c, Coming(h, v.g.dev, v.j.isM))
    ensures var d := Acked(v.g.dev, h.status); CleanAt(Quiet, d, v.j.isM) && Hoping(v.c, Coming(Quiet, d, v.j.isM))
  {
    AckClean(h.status, v.g.dev, v.j.isM);
    if Coming(h, v.g.dev, v.j.isM) { AckComing(h.status, v.g.dev, v.j.isM); }
  }

  lemma AckAwaits(k: Card, s: State, t: nat)
    requires Awaited(k, s, t) && WaitsOn(s, t) && IrqEnabled(s, Ack)
    ensures Awaited(k, IrqAckStep(s), t)
  {
    AckHopes(s.irq, Look(s, t));
    IrqIso(k, s, NOBODY, Ack);
  }

  lemma IrqAwaits(k: Card, s: State, t: nat, i: IrqEvent)
    requires Awaited(k, s, t) && WaitsOn(s, t) && IrqEnabled(s, i)
    ensures Awaited(k, IrqStep(s, i), t)
  {
    match i
    case Read => ReadAwaits(k, s, t);
    case Wake => WakeAwaits(k, s, t);
    case Ack => AckAwaits(k, s, t);
    case Atomic =>
      ReadAwaits(k, s, t);
      WakeAwaits(k, IrqReadStep(s), t);
      AckAwaits(k, IrqWakeStep(IrqReadStep(s)), t);
  }

  lemma UserSame(k: Card, s: State, t: nat, u: nat, x: UserEvent)
    requires WellFormed(s) && Distinct(s) && WaitsOn(s, t) && Enabled(s, User(u, x))
    ensures SameHope(s, Next(k, s, User(u, x)), t)
  {
    assert u != t && s.clients[u].h != s.clients[t].h;
    assert UserStep(Look(s, u), x).g == s.g && UserStep(Look(s, u), x).c.h == s.clients[u].h;
  }

  lemma UserAwaits(k: Card, s: State, t: nat, u: nat, x: UserEvent)
    requires Awaited(k, s, t) && WaitsOn(s, t) && Enabled(s, User(u, x))
    ensures Awaited(k, Next(k, s, User(u, x)), t)
  {
    IsoStep(k, s, NOBODY, User(u, x));
    UserSame(k, s, t, u, x);
    SameAwaits(k, s, Next(k, s, User(u, x)), t);
  }

  lemma AwaitedStep(k: Card, s: State, e: Event, t: nat)
    requires Awaited(k, s, t) && Enabled(s, e) && WaitsOn(s, t)
    ensures Awaited(k, Next(k, s, e), t)
  {
    match e
    case Thread(u, ch) => if u == t { OwnAwaits(k, s, t, ch); } else { OtherAwaits(k, s, t, u, ch); }
    case User(u, x) => UserAwaits(k, s, t, u, x);
    case Hardware(c) => CardAwaits(k, s, t, c);
    case Irq(i) => IrqAwaits(k, s, t, i);
  }

  lemma {:induction false} AwaitedOn(k: Card, s: State, es: seq<Event>, s': State, t: nat)
    requires Awaited(k, s, t) && Along(k, s, es, s', Sat(t))
    ensures Awaited(k, s', t)
    decreases |es|
  {
    if es != [] {
      AwaitedStep(k, s, es[0], t);
      AwaitedOn(k, Next(k, s, es[0]), es[1..], s', t);
    }
  }

  /** Whatever the handler does: with its interrupt alone on the way, the client is not left asleep. */
  lemma NeverLost(k: Card, s: State, s': State, t: nat)
    requires Awaited(k, s, t) && MayCome(k, s, s', t)
    ensures !Dead(s', t)
  {
    var es :| Along(k, s, es, s', Sat(t));
    AwaitedOn(k, s, es, s', t);
  }

  // ----- something left over: it may be lost -----

  /** The client has just started its operation. */
  ghost predicate Begun(k: Card, s: State, t: nat) {
    && IsoOk(k, s, NOBODY) && Bits(s)
    && WaitsOn(s, t) && s.clients[t].pc == Wait(First) && Engaged(Look(s, t))
  }

  /** The same client, still about to test for the first time. */
  predicate SameStart(s: State, s': State, t: nat) {
    && WaitsOn(s, t) && WaitsOn(s', t)
    && s'.clients[t].pc == s.clients[t].pc && Look(s', t).j == Look(s, t).j
  }

  lemma MayStep(k: Card, s: State, e: Event, t: nat)
    requires Enabled(s, e) && WaitsOn(s, t)
    ensures MayCome(k, s, Next(k, s, e), t)
  {
    OneEvent(k, s, e, Sat(t));
  }

  lemma Wakes(k: Card, s: State, t: nat)
    requires Begun(k, s, t) && s.irq.Seen?
    ensures var s' := IrqWakeStep(s);
      && MayCome(k, s, s', t) && Begun(k, s', t) && SameStart(s, s', t)
      && s'.g == s.g && s'.irq == Woke(s.irq.status)
  {
    MayStep(k, s, Irq(Wake), t);
    IrqIso(k, s, NOBODY, Wake);
    assert Look(IrqWakeStep(s), t).j == Look(s, t).j;
  }

  lemma AckBits(s: State)
    requires Bits(s) && s.irq.Woke?
    ensures Bits(IrqAckStep(s))
  {
    IrqBits(s, Ack);
  }

  lemma Acks(k: Card, s: State, t: nat)
    requires Begun(k, s, t) && s.irq.Woke?
    ensures var s' := IrqAckStep(s);
      && MayCome(k, s, s', t) && Begun(k, s', t) && SameStart(s, s', t)
      && s'.irq.Quiet? && s'.g.dev == Acked(s.g.dev, s.irq.status)
  {
    MayStep(k, s, Irq(Ack), t);
    IrqIso(k, s, NOBODY, Ack);
    AckBits(s);
  }

  /** The handler finishes what it is at. */
  lemma HandlerDone(k: Card, s: State, t: nat) returns (s': State)
    requires Begun(k, s, t)
    ensures MayCome(k, s, s', t) && Begun(k, s', t) && SameStart(s, s', t)
    ensures s'.irq.Quiet? && s'.g.dev == s.g.dev.(istatus := Unseen(s.irq, s.g.dev.istatus))
  {
    match s.irq
    case Quiet =>
      s' := s;
      Stays(k, s, Sat(t));
    case Seen(_) =>
      Wakes(k, s, t);
      var m := IrqWakeStep(s);
      Acks(k, m, t);
      s' := IrqAckStep(m);
      Then(k, s, m, s', Sat(t));
    case Woke(_) =>
      Acks(k, s, t);
      s' := IrqAckStep(s);
  }

  lemma SittingIsSat(k: Card, s: State, s': State, t: nat)
    requires ComesTo(k, s, s', t)
    ensures MayCome(k, s, s', t)
  {
    Wider(k, s, s', Sitting(t), Sat(t));
  }

  /** An interrupt of the other mode is left over: an uninterrupted handler is enough. */
  lemma OtherLost(k: Card, s: State, t: nat) returns (s': State)
    requires Begun(k, s, t)
    requires var d, isM := s.g.dev, Look(s, t).j.isM;
      WillRaise(d, !isM) || Has(d.owed, !isM) || Has(Unseen(s.irq, d.istatus), !isM)
    ensures MayCome(k, s, s', t) && Dead(s', t)
  {
    var m := HandlerDone(k, s, t);
    s' := Lost(k, m, t);
    SittingIsSat(k, m, s', t);
    Then(k, s, m, s', Sat(t));
  }

  /** All that is pending has been read, `own` with it, and nothing else is owed. */
  predicate Joined(st: bv32, istatus: bv32, owed: bv32, own: bv32, other: bv32) {
    && (owed == 0 || owed == own) && (st == own || st == own | other)
    && (istatus == 0 || istatus == own || (st != own && (istatus == other || istatus == own | other)))
  }

  /** The handler is about to acknowledge an interrupt of the client's mode, and all else pending and owed with it. */
  predicate Merging(st: bv32, d: Device, isM: bool) {
    !WillRaise(d, !isM) && Joined(st, d.istatus, d.owed, DoneBit(isM), DoneBit(!isM))
  }

  lemma FinishJoins(st: bv32, d: Device, dma: bool, isM: bool)
    requires Merging(st, d, isM)
    ensures Joined(st, FinishStep(d, dma).istatus, FinishStep(d, dma).owed, DoneBit(isM), DoneBit(!isM))
  {}

  lemma FinishMerges(st: bv32, d: Device, dma: bool, isM: bool)
    requires Merging(st, d, isM)
    ensures Merging(st, FinishStep(d, dma), isM)
  {
    FinishJoins(st, d, dma, isM);
  }

  lemma SameMerges(st: bv32, d: Device, d': Device, isM: bool)
    requires Merging(st, d, isM) && SameRaises(d, d')
    ensures Merging(st, d', isM)
  {}

  lemma JoinedRaise(st: bv32, istatus: bv32, owed: bv32, isM: bool)
    requires Joined(st, istatus, owed, DoneBit(isM), DoneBit(!isM))
    ensures Joined(st, istatus | owed, 0, DoneBit(isM), DoneBit(!isM))
  {}

  lemma RaiseMerges(st: bv32, d: Device, isM: bool)
    requires Merging(st, d, isM)
    ensures Merging(st, RaiseStep(d), isM)
  {
    JoinedRaise(st, d.istatus, d.owed, isM);
  }

  /** Client `t` sleeps, and what will wake it is about to be acknowledged. */
  predicate Merged(s: State, t: nat) {
    && WaitsOn(s, t) && s.clients[t].pc == Wait(Sleep) && !s.clients[t].woken
    && s.irq.Woke? && Merging(s.irq.status, s.g.dev, Look(s, t).j.isM)
  }

  lemma SameOn(s: State, t: nat, g: Shared)
    requires Merged(s, t) && SameRaises(s.g.dev, g.dev)
    ensures Merged(s.(g := g), t)
  {
    SameMerges(s.irq.status, s.g.dev, g.dev, Look(s, t).j.isM);
  }

  lemma FinishOn(s: State, t: nat, dma: bool)
    requires Merged(s, t)
    ensures Merged(s.(g := s.g.(dev := FinishStep(s.g.dev, dma))), t)
  {
    FinishMerges(s.irq.status, s.g.dev, dma, Look(s, t).j.isM);
  }

  lemma MergesOn(k: Card, s: State, t: nat, e: CardEvent)
    requires Merged(s, t) && CardEnabled(s.g.dev, e) && (e.Transform? || e.Finish?)
    ensures Merged(s.(g := CardStep(k, s.g, e)), t)
  {
    if e.Transform? {
      TransformRaises(k, s.g, e.dma);
      SameOn(s, t, CardStep(k, s.g, e));
    } else {
      FinishOn(s, t, e.dma);
      assert CardStep(k, s.g, e) == s.g.(dev := FinishStep(s.g.dev, e.dma));
    }
  }

  lemma {:induction false} MergesOff(k: Card, s: State, t: nat) returns (s': State)
    requires Merged(s, t) && SemOk(s)
    ensures MayCome(k, s, s', t) && Merged(s', t) && SemOk(s') && s'.g.dev.mmio.None? && s'.g.dev.dma.None?
    decreases Work(s.g.dev)
  {
    if Work(s.g.dev) == 0 {
      s' := s;
      Stays(k, s, Sat(t));
    } else {
      var e := NextWork(s.g.dev);
      LessWork(k, s.g);
      MergesOn(k, s, t, e);
      CardKeepsSem(k, s, e);
      MayStep(k, s, Hardware(e), t);
      var m := s.(g := CardStep(k, s.g, e));
      s' := MergesOff(k, m, t);
      Then(k, s, m, s', Sat(t));
    }
  }

  lemma MergesRaised(k: Card, s: State, t: nat) returns (s': State)
    requires Merged(s, t) && SemOk(s) && s.g.dev.mmio.None? && s.g.dev.dma.None?
    ensures MayCome(k, s, s', t) && Merged(s', t) && SemOk(s') && s'.g.dev.owed == 0
    ensures s'.g.dev.mmio.None? && s'.g.dev.dma.None?
  {
    if s.g.dev.owed == 0 {
      s' := s;
      Stays(k, s, Sat(t));
    } else {
      RaiseMerges(s.irq.status, s.g.dev, Look(s, t).j.isM);
      CardKeepsSem(k, s, Raise);
      MayStep(k, s, Hardware(Raise), t);
      s' := s.(g := CardStep(k, s.g, Raise));
    }
  }

  /** What has been read is acknowledged with everything that has come in since. */
  lemma JoinedAck(st: bv32, istatus: bv32, owed: bv32, isM: bool)
    requires Joined(st, istatus, owed, DoneBit(isM), DoneBit(!isM))
    ensures istatus & !st == 0
  {}

  /** From the first test of the wait to the acknowledgement that swallows the client's interrupt. */
  lemma MergeLost(k: Card, s: State, t: nat) returns (s': State)
    requires Begun(k, s, t) && s.irq.Woke? && Merging(s.irq.status, s.g.dev, Look(s, t).j.isM)
    ensures MayCome(k, s, s', t) && Dead(s', t)
  {
    var s1 := FallsAsleep(k, s, t);
    SittingIsSat(k, s, s1, t);
    var s2 := MergesOff(k, s1, t);
    var s3 := MergesRaised(k, s2, t);
    s' := IrqAckStep(s3);
    JoinedAck(s3.irq.status, s3.g.dev.istatus, 0, Look(s3, t).j.isM);
    IrqKeepsSem(s3, Ack);
    MayStep(k, s3, Irq(Ack), t);
    Then(k, s2, s3, s', Sat(t));
    Then(k, s1, s2, s', Sat(t));
    Then(k, s, s1, s', Sat(t));
  }

  lemma ReadJoins(st: bv32, istatus: bv32, isM: bool)
    requires Word(istatus) && st & istatus == st && Has(st, isM) && !Has(istatus & !st, !isM)
    ensures Joined(st, istatus, 0, DoneBit(isM), DoneBit(!isM))
  {}

  lemma SomeIsOwn(x: bv32, isM: bool)
    requires Word(x) && x != 0 && !Has(x, !isM)
    ensures Has(x, isM)
  {}

  lemma StillThere(a: bv32, st: bv32, isM: bool)
    requires Has(a, isM) && !Has(st, isM)
    ensures Has(a & !st, isM)
  {}

  /** An idle handler reads what is pending, and wakes whoever sleeps; the client does not yet. */
  lemma Reads(k: Card, s: State, t: nat) returns (s': State)
    requires Begun(k, s, t) && s.irq.Quiet? && s.g.dev.istatus != 0
    ensures MayCome(k, s, s', t) && Begun(k, s', t) && SameStart(s, s', t)
    ensures s'.g == s.g && s'.irq == Woke(s.g.dev.istatus)
  {
    var m := IrqReadStep(s);
    MayStep(k, s, Irq(Read), t);
    IrqIso(k, s, NOBODY, Read);
    IrqBits(s, Read);
    assert Look(m, t) == Look(s, t);
    Wakes(k, m, t);
    s' := IrqWakeStep(m);
    Then(k, s, m, s', Sat(t));
  }

  lemma NothingOwed(d: Device)
    requires d.owed == 0
    ensures RaiseStep(d) == d
  {}

  lemma BegunRaises(k: Card, s: State, t: nat) returns (s': State)
    requires Begun(k, s, t)
    ensures MayCome(k, s, s', t) && Begun(k, s', t) && SameStart(s, s', t) && s'.irq == s.irq
    ensures s'.g.dev == RaiseStep(s.g.dev)
  {
    if s.g.dev.owed == 0 {
      s' := s;
      NothingOwed(s.g.dev);
      Stays(k, s, Sat(t));
    } else {
      MayStep(k, s, Hardware(Raise), t);
      CardIso(k, s, NOBODY, Raise);
      CardBits(k, s, Raise);
      s' := s.(g := CardStep(k, s.g, Raise));
    }
  }

  /** With an interrupt of the client's mode pending or owed, an idle handler comes to be about to acknowledge it. */
  lemma ReadsOwn(k: Card, s: State, t: nat) returns (s': State)
    requires Begun(k, s, t) && s.irq.Quiet?
    requires var d, isM := s.g.dev, Look(s, t).j.isM; !WillRaise(d, !isM) && Has(RaiseStep(d).istatus, isM)
    ensures MayCome(k, s, s', t) && Begun(k, s', t) && SameStart(s, s', t)
    ensures s'.irq.Woke? && Merging(s'.irq.status, s'.g.dev, Look(s, t).j.isM)
  {
    var m := BegunRaises(k, s, t);
    s' := Reads(k, m, t);
    NothingLeft(m.g.dev.istatus);
    Itself(m.g.dev.istatus);
    ReadJoins(m.g.dev.istatus, m.g.dev.istatus, Look(s, t).j.isM);
    Then(k, s, m, s', Sat(t));
  }

  /** The handler has read it already. */
  lemma AlreadyRead(k: Card, s: State, t: nat) returns (s': State)
    requires Begun(k, s, t) && !s.irq.Quiet?
    requires var d, isM := s.g.dev, Look(s, t).j.isM;
      && !WillRaise(d, !isM) && !Has(d.owed, !isM) && !Has(d.istatus & !s.irq.status, !isM) && Has(s.irq.status, isM)
    ensures MayCome(k, s, s', t) && Begun(k, s', t) && SameStart(s, s', t)
    ensures s'.irq.Woke? && Merging(s'.irq.status, s'.g.dev, Look(s, t).j.isM)
  {
    var d, isM, st := s.g.dev, Look(s, t).j.isM, s.irq.status;
    ReadJoins(st, d.istatus, isM);
    OneBit(d.owed, isM);
    if s.irq.Seen? {
      Wakes(k, s, t);
      s' := IrqWakeStep(s);
    } else {
      s' := s;
      Stays(k, s, Sat(t));
    }
  }

  /** What the handler leaves, raised. */
  lemma LeftForRaise(h: Handler, d: Device, isM: bool)
    requires BitsOk(h, d.istatus, d.owed) && !Has(d.owed, !isM) && (d.owed != 0 || Has(d.istatus, isM))
    requires !h.Quiet? ==> !Has(h.status, isM)
    ensures Has(RaiseStep(d.(istatus := Unseen(h, d.istatus))).istatus, isM)
  {
    if d.owed != 0 {
      SomeIsOwn(d.owed, isM);
      OrHas(d.owed, Unseen(h, d.istatus), isM);
    } else {
      if !h.Quiet? { StillThere(d.istatus, h.status, isM); }
      OrHas(Unseen(h, d.istatus), d.owed, isM);
    }
  }

  /** An interrupt of the client's own mode is left over, and none of the other. */
  lemma OwnLost(k: Card, s: State, t: nat) returns (s': State)
    requires Begun(k, s, t)
    requires var d, isM := s.g.dev, Look(s, t).j.isM;
      && !WillRaise(d, !isM) && !Has(d.owed, !isM) && !Has(Unseen(s.irq, d.istatus), !isM)
      && (d.owed != 0 || Has(d.istatus, isM))
    ensures MayCome(k, s, s', t) && Dead(s', t)
  {
    var d, isM := s.g.dev, Look(s, t).j.isM;
    var m: State;
    if !s.irq.Quiet? && Has(s.irq.status, isM) {
      m := AlreadyRead(k, s, t);
    } else {
      var m0 := HandlerDone(k, s, t);
      LeftForRaise(s.irq, d, isM);
      m := ReadsOwn(k, m0, t);
      Then(k, s, m0, m, Sat(t));
    }
    s' := MergeLost(k, m, t);
    Then(k, s, m, s', Sat(t));
  }

  /** From the first test of the wait, with something left over, to the end of hope. */
  lemma MayBeLost(k: Card, s: State, t: nat) returns (s': State)
    requires Begun(k, s, t) && LeftOver(s, Look(s, t).j.isM)
    ensures MayCome(k, s, s', t) && Dead(s', t)
  {
    var d, isM := s.g.dev, Look(s, t).j.isM;
    if WillRaise(d, !isM) || Has(d.owed, !isM) || Has(Unseen(s.irq, d.istatus), !isM) {
      s' := OtherLost(k, s, t);
    } else {
      s' := OwnLost(k, s, t);
    }
  }

  // ----- exactly then -----

  /** Nothing left over: what is pending is of the other mode, and being dealt with. */
  lemma NothingIsClean(h: Handler, d: Device, isM: bool)
    requires BitsOk(h, d.istatus, d.owed) && OpIn(d, isM)
    requires !WillRaise(d, !isM) && d.owed == 0 && !Has(d.istatus, isM) && !Has(Unseen(h, d.istatus), !isM)
    ensures CleanAt(h, d, isM)
  {}

  lemma StartLeaves(k: Card, s: State, t: nat)
    requires IsoOk(k, s, NOBODY) && t < |s.clients| && Look(s, t).j.isI
    requires s.clients[t].pc == Mmio(MStart) || s.clients[t].pc == Dma(DCmd)
    ensures Enabled(s, Thread(t, Ok))
    ensures var isM := Look(s, t).j.isM; LeftOver(Next(k, s, Thread(t, Ok)), isM) <==> LeftOver(s, isM)
  {
    assert LocalOk(Look(s, t)) && SecOk(k, Look(s, t), false);
    StartShape(k, Look(s, t), Ok);
  }

  lemma StartBegins(k: Card, s: State, t: nat)
    requires IsoOk(k, s, NOBODY) && Bits(s) && t < |s.clients| && Look(s, t).j.isI
    requires s.clients[t].pc == Mmio(MStart) || s.clients[t].pc == Dma(DCmd)
    ensures Enabled(s, Thread(t, Ok)) && Begun(k, Next(k, s, Thread(t, Ok)), t)
    ensures Look(Next(k, s, Thread(t, Ok)), t).j == Look(s, t).j
  {
    StartGoes(k, s, t);
    BitsStep(k, s, Thread(t, Ok));
  }

  lemma BegunAwaits(k: Card, s: State, t: nat)
    requires Begun(k, s, t) && !LeftOver(s, Look(s, t).j.isM)
    ensures Awaited(k, s, t)
  {
    NothingIsClean(s.irq, s.g.dev, Look(s, t).j.isM);
  }

  /**
   * In every state of every run: a client that starts an interrupt-driven operation can come to
   * sleep for ever on it, the handler being interrupted or not, if and only if some interrupt is
   * left over at that moment.
   */
  lemma SplitExactly(k: Card, tr: seq<State>, ev: seq<Event>, i: nat, t: nat)
    requires k.Good() && FromStart(k, tr, ev) && i <= |ev| && WellFormed(tr[i])
    requires t < |tr[i].clients| && Look(tr[i], t).j.isI
    requires tr[i].clients[t].pc == Mmio(MStart) || tr[i].clients[t].pc == Dma(DCmd)
    ensures Enabled(tr[i], Thread(t, Ok))
    ensures (exists s' :: MayCome(k, Next(k, tr[i], Thread(t, Ok)), s', t) && Dead(s', t))
      <==> LeftOver(tr[i], Look(tr[i], t).j.isM)
  {
    IsoRun(k, tr, ev, i);
    BitsRun(k, tr, ev, i);
    StartBegins(k, tr[i], t);
    StartLeaves(k, tr[i], t);
    var s := Next(k, tr[i], Thread(t, Ok));
    if LeftOver(s, Look(s, t).j.isM) {
      var s' := MayBeLost(k, s, t);
    } else {
      BegunAwaits(k, s, t);
      forall s' | MayCome(k, s, s', t)
        ensures !Dead(s', t)
      {
        NeverLost(k, s, s', t);
      }
    }
  }
}
