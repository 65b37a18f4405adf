/**
 * Runs in which no wait is interrupted: the card is handed over idle, so that nobody ever comes
 * in to a forgotten operation, and nothing stays mapped.
 */
module Handover {
  import opened Types
  import opened Machine
  import opened Semaphore
  import opened Buffers
  import opened Frames
  import opened Isolation
  import opened Mappings

  /** No wait is cut short by this event. */
  ghost predicate Calm(s: State, e: Event)
    requires Enabled(s, e)
  {
    e.Thread? ==> !Interrupted(Look(s, e.t), e.ch)
  }

  ghost predicate CalmRun(k: Card, tr: seq<State>, ev: seq<Event>) {
    FromStart(k, tr, ev) && forall i :: 0 <= i < |ev| ==> Calm(tr[i], ev[i])
  }

  /** Inside the section the card rests, except for the operation the holder waits for. */
  predicate Attended(v: View) {
    var d := v.g.dev;
    InSection(v.c.pc) ==>
      if !Waits(v) then AtRest(d)
      else if v.j.isM then d.dma.None? && !Bit(d.cmd, 1)
      else d.mmio.None? && !Bit(d.status, 1)
  }

  ghost predicate CalmOk(k: Card, s: State) {
    && IsoOk(k, s, NOBODY)
    && (s.g.sem == 1 ==> AtRest(s.g.dev))
    && (forall t :: 0 <= t < |s.clients| ==> Attended(Look(s, t)))
  }

  // ----- a client's own steps -----

  lemma MmioAttended(k: Card, v: View, pc: MmioPC, ch: Choice)
    requires v.c.pc == Mmio(pc) && LocalOk(v) && SecOk(k, v, false) && Attended(v)
    ensures Attended(MmioStep(v, pc, ch))
  {}

  lemma DmaAttended(k: Card, v: View, pc: DmaPC, ch: Choice)
    requires v.c.pc == Dma(pc) && LocalOk(v) && SecOk(k, v, false) && Attended(v)
    ensures Attended(DmaStep(v, pc, ch))
  {}

  lemma WaitAttended(k: Card, v: View, pc: WaitPC, ch: Choice)
    requires v.c.pc == Wait(pc) && LocalOk(v) && SecOk(k, v, false) && Attended(v) && !Interrupted(v, ch)
    ensures Attended(WaitStep(v, pc, ch))
  {}

  lemma SectionAttended(k: Card, v: View, ch: Choice)
    requires LocalOk(v) && SecOk(k, v, false) && Attended(v) && !Interrupted(v, ch) && InSection(v.c.pc)
    ensures Attended(LocalStep(k, v, ch))
    ensures v.c.pc.Up? ==> AtRest(LocalStep(k, v, ch).g.dev)
  {
    match v.c.pc
    case Mmio(pc) => MmioAttended(k, v, pc, ch);
    case Dma(pc) => DmaAttended(k, v, pc, ch);
    case Wait(pc) => WaitAttended(k, v, pc, ch);
    case Up(_) =>
  }

  /** Whoever comes in finds the card as it was left. */
  lemma EntryAttended(k: Card, v: View, ch: Choice)
    requires !InSection(v.c.pc) && (InSection(LocalStep(k, v, ch).c.pc) ==> AtRest(v.g.dev))
    ensures Attended(LocalStep(k, v, ch))
  {
    LocalFramed(k, v, ch);
    if v.c.pc.Pre? { assert LocalStep(k, v, ch) == EntryStep(k, v, v.c.pc.pre, ch); }
  }

  lemma CameIn(s: State, t: nat, ch: Choice, k: Card)
    requires SemOk(s) && t < |s.clients| && ThreadEnabled(Look(s, t), ch) && !Inside(s, t)
    requires InSection(LocalStep(k, Look(s, t), ch).c.pc)
    ensures s.g.sem == 1
  {
    LocalMoves(k, Look(s, t), ch);
  }

  lemma ThreadAttended(k: Card, s: State, t: nat, ch: Choice)
    requires CalmOk(k, s) && t < |s.clients| && ThreadEnabled(Look(s, t), ch) && !Interrupted(Look(s, t), ch)
    ensures Attended(LocalStep(k, Look(s, t), ch))
    ensures s.clients[t].pc.Up? ==> AtRest(LocalStep(k, Look(s, t), ch).g.dev)
  {
    var v := Look(s, t);
    assert LocalOk(v) && SecOk(k, v, false) && Attended(v);
    if InSection(v.c.pc) {
      SectionAttended(k, v, ch);
    } else {
      assert !Inside(s, t);
      if InSection(LocalStep(k, v, ch).c.pc) { CameIn(s, t, ch, k); }
      EntryAttended(k, v, ch);
    }
  }

  /** The others are outside, or see the same card. */
  lemma OthersAttended(k: Card, s: State, t: nat, v: View, u: nat)
    requires CalmOk(k, s) && t < |s.clients| && u < |s.clients| && u != t && v.c.h == s.clients[t].h
    requires Framed(k, Look(s, t), v)
    ensures WellFormed(Store(s, t, v)) && Attended(Look(Store(s, t, v), u))
  {
    assert Look(Store(s, t, v), u) == Look(s, u).(g := v.g) && Attended(Look(s, u));
    if Inside(s, u) { assert !Inside(s, t); }
  }

  /** The semaphore is free after a step if it was, or if the step was the up. */
  lemma FreeAtRest(k: Card, s: State, t: nat, ch: Choice)
    requires CalmOk(k, s) && t < |s.clients| && ThreadEnabled(Look(s, t), ch) && !Interrupted(Look(s, t), ch)
    requires LocalStep(k, Look(s, t), ch).g.sem == 1
    ensures AtRest(LocalStep(k, Look(s, t), ch).g.dev)
  {
    var v := Look(s, t);
    LocalMoves(k, v, ch);
    LocalFramed(k, v, ch);
    ThreadAttended(k, s, t, ch);
    assert Inside(s, t) == InSection(v.c.pc);
  }

  lemma ThreadCalm(k: Card, s: State, t: nat, ch: Choice)
    requires CalmOk(k, s) && t < |s.clients| && ThreadEnabled(Look(s, t), ch) && !Interrupted(Look(s, t), ch)
    ensures CalmOk(k, Store(s, t, LocalStep(k, Look(s, t), ch)))
  {
    var v' := LocalStep(k, Look(s, t), ch);
    var s' := Store(s, t, v');
    ThreadIso(k, s, NOBODY, t, ch);
    LocalMoves(k, Look(s, t), ch);
    LocalFramed(k, Look(s, t), ch);
    ThreadAttended(k, s, t, ch);
    assert Look(s', t) == v';
    forall u | 0 <= u < |s.clients| && u != t
      ensures Attended(Look(s', u))
    {
      OthersAttended(k, s, t, v', u);
    }
    if s'.g.sem == 1 { FreeAtRest(k, s, t, ch); }
  }

  // ----- the card and the handler -----

  lemma FinishAttended(k: Card, v: View, dma: bool)
    requires SecOk(k, v, false) && Attended(v) && InSection(v.c.pc) && CardEnabled(v.g.dev, Finish(dma))
    ensures Attended(v.(g := v.g.(dev := FinishStep(v.g.dev, dma))))
  {}

  lemma TransformAttended(k: Card, v: View, dma: bool)
    requires Attended(v) && InSection(v.c.pc) && CardEnabled(v.g.dev, Transform(dma))
    ensures Attended(v.(g := TransformStep(k, v.g, dma)))
  {}

  lemma CardAttended(k: Card, v: View, e: CardEvent)
    requires SecOk(k, v, false) && Attended(v) && InSection(v.c.pc) && CardEnabled(v.g.dev, e)
    ensures Attended(v.(g := CardStep(k, v.g, e)))
  {
    match e
    case Poke(_, _) =>
    case Transform(dma) => TransformAttended(k, v, dma);
    case Finish(dma) => FinishAttended(k, v, dma);
    case Raise =>
  }

  /** A resting card has nothing to do but raise what it owes. */
  lemma RestStays(k: Card, g: Shared, e: CardEvent)
    requires AtRest(g.dev) && CardEnabled(g.dev, e)
    ensures AtRest(CardStep(k, g, e).dev)
  {}

  lemma CardCalm(k: Card, s: State, e: CardEvent)
    requires CalmOk(k, s) && CardEnabled(s.g.dev, e)
    ensures CalmOk(k, s.(g := CardStep(k, s.g, e)))
  {
    var s' := s.(g := CardStep(k, s.g, e));
    CardIso(k, s, NOBODY, e);
    CardKeepsSem(k, s, e);
    if AtRest(s.g.dev) { RestStays(k, s.g, e); }
    forall t | 0 <= t < |s.clients|
      ensures Attended(Look(s', t))
    {
      assert SecOk(k, Look(s, t), false) && Attended(Look(s, t));
      if InSection(s.clients[t].pc) { CardAttended(k, Look(s, t), e); }
    }
  }

  lemma IrqAttended(v: View, v': View)
    requires Attended(v) && v'.j == v.j && SameCard(v.g, v'.g)
    requires v'.c == v.c || v'.c == v.c.(woken := true)
    ensures Attended(v')
  {}

  lemma IrqCalm(k: Card, s: State, i: IrqEvent)
    requires CalmOk(k, s) && IrqEnabled(s, i)
    ensures CalmOk(k, IrqStep(s, i))
  {
    var s' := IrqStep(s, i);
    IrqIso(k, s, NOBODY, i);
    forall t | 0 <= t < |s.clients|
      ensures Attended(Look(s', t))
    {
      assert Attended(Look(s, t));
      IrqEffect(s, i, t);
      IrqAttended(Look(s, t), Look(s', t));
    }
  }

  lemma UserCalm(k: Card, s: State, t: nat, u: UserEvent)
    requires CalmOk(k, s) && Enabled(s, User(t, u))
    ensures CalmOk(k, Next(k, s, User(t, u)))
  {
    var v := UserStep(Look(s, t), u);
    var s' := Store(s, t, v);
    UserIso(k, s, NOBODY, t, u);
    assert Look(s', t) == v;
    forall w | 0 <= w < |s.clients| && w != t
      ensures Look(s', w) == Look(s, w) && Attended(Look(s', w))
    {
      assert Attended(Look(s, w));
    }
  }

  lemma CalmStep(k: Card, s: State, e: Event)
    requires CalmOk(k, s) && Enabled(s, e) && Calm(s, e)
    ensures CalmOk(k, Next(k, s, e))
  {
    match e
    case Thread(t, ch) => ThreadCalm(k, s, t, ch);
    case User(t, u) => UserCalm(k, s, t, u);
    case Hardware(c) => CardCalm(k, s, c);
    case Irq(i) => IrqCalm(k, s, i);
  }

  // ----- theorems over runs -----

  lemma {:induction false} CalmOn(k: Card, tr: seq<State>, ev: seq<Event>, i: nat)
    requires k.Good() && CalmRun(k, tr, ev) && i <= |ev|
    ensures CalmOk(k, tr[i])
  {
    if i == 0 {
      IsoRun(k, tr, ev, 0);
      assert forall t :: 0 <= t < |tr[0].clients| ==> Look(tr[0], t).c.pc.Idle?;
    } else {
      CalmOn(k, tr, ev, i - 1);
      CalmStep(k, tr[i - 1], ev[i - 1]);
    }
  }

  /** While the card is busy somebody holds it, and a DMA operation is on the holder's buffer. */
  lemma BusyMeansHeld(k: Card, s: State) returns (o: nat)
    requires CalmOk(k, s) && (s.g.dev.mmio.Some? || s.g.dev.dma.Some?)
    ensures o < |s.clients| && Inside(s, o) && Waits(Look(s, o)) && Look(s, o).j.isM == s.g.dev.mmio.Some?
    ensures s.g.dev.dma.Some? ==> Owns(s, o, s.g.dev.dma.value.buf)
  {
    assert s.g.sem != 1;
    o :| 0 <= o < |s.clients| && Inside(s, o);
    assert SecOk(k, Look(s, o), false) && Attended(Look(s, o)) && LocalOk(Look(s, o));
  }

  lemma NoFlight(s: State)
    requires SemOk(s) && s.g.sem == 1
    ensures Flying(s) == {}
  {
    assert forall t :: 0 <= t < |s.clients| ==> !Inside(s, t) && !InFlight(Look(s, t));
  }

  lemma CalmLeavesNothing(k: Card, tr: seq<State>, ev: seq<Event>, i: nat)
    requires CalmRun(k, tr, ev) && i <= |ev|
    ensures LeftBehind(tr, ev, i) == {}
  {
    forall n | 0 <= n < i
      ensures LeftBy(tr[n], ev[n]) == {}
    {
      assert Calm(tr[n], ev[n]);
    }
    LeftNothing(tr, ev, i);
  }

  /** Idle hand-over: whoever finds the semaphore free finds the card idle and nothing mapped. */
  lemma IdleHandOver(k: Card, tr: seq<State>, ev: seq<Event>, i: nat)
    requires k.Good() && CalmRun(k, tr, ev) && i <= |ev| && tr[i].g.sem == 1
    ensures tr[i].g.dev.mmio.None? && tr[i].g.dev.dma.None? && tr[i].g.mapped == {}
    ensures Ready(tr[i].g.dev, true) && Ready(tr[i].g.dev, false)
  {
    CalmOn(k, tr, ev, i);
    MapRun(k, tr, ev, i);
    NoFlight(tr[i]);
    CalmLeavesNothing(k, tr, ev, i);
  }

  /** In a calm run no operation is forgotten. */
  lemma NothingForgotten(k: Card, s: State)
    requires CalmOk(k, s)
    ensures !Forgotten(s.g)
  {
    if s.g.dev.dma.Some? {
      var o := BusyMeansHeld(k, s);
      assert LocalOk(Look(s, o));
    }
  }

  /** So in a calm run a caller is disturbed by nothing but stores into its message. */
  lemma CalmIsQuiet(k: Card, tr: seq<State>, ev: seq<Event>, me: nat, i: nat, j: nat)
    requires k.Good() && CalmRun(k, tr, ev) && i <= j <= |ev|
    requires forall m :: i <= m < j && WellFormed(tr[m]) && me < |tr[m].clients| && ev[m].Hardware? ==>
      !Overwrites(Look(tr[m], me), ev[m].e)
    ensures QuietRun(tr, ev, me, i, j)
  {
    forall m | i <= m < j
      ensures WellFormed(tr[m]) && Undisturbed(tr[m], ev[m], me)
    {
      CalmOn(k, tr, ev, m);
      NothingForgotten(k, tr[m]);
      assert Enabled(tr[m], ev[m]);
    }
  }
}
