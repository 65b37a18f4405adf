/**
 * DMA mappings over whole runs, interrupted waits and stores into the window included: what is
 * mapped is what writes in flight have mapped, and what interrupted waits left behind.
 */
module Mappings {
  import opened Types
  import opened Machine
  import opened Buffers
  import opened Isolation

  /** Between mapping and unmapping its kernel buffer. */
  predicate InFlight(v: View) {
    match v.c.pc
    case Dma(pc) => !pc.DMap? && !pc.DUser?
    case Wait(_) => !v.j.isM
    case _ => false
  }

  function Flight(v: View): set<int> { if InFlight(v) then {v.c.dma} else {} }

  /** The buffers of all writes in flight. */
  function Flying(s: State): set<int>
    requires WellFormed(s)
  {
    set t | 0 <= t < |s.clients| && InFlight(Look(s, t)) :: s.clients[t].dma
  }

  /** What a step leaves mapped for good: `dma_unmap_single` is skipped when a wait is interrupted. */
  function Left(v: View, ch: Choice): set<int> {
    if Interrupted(v, ch) && !v.j.isM then {v.c.dma} else {}
  }

  function LeftBy(s: State, e: Event): set<int> {
    if e.Thread? && WellFormed(s) && e.t < |s.clients| then Left(Look(s, e.t), e.ch) else {}
  }

  /** The buffers whose waits were interrupted among the first `m` events. */
  function LeftBehind(tr: seq<State>, ev: seq<Event>, m: nat): set<int>
    requires m <= |ev| < |tr|
  {
    if m == 0 then {} else LeftBehind(tr, ev, m - 1) + LeftBy(tr[m - 1], ev[m - 1])
  }

  /** A name left behind is never in use again, except by the write that is on its way out. */
  predicate Abandoned(v: View, left: set<int>) {
    v.j.msg.Some? && v.j.msg.value in left ==> v.c.pc.Up? || v.c.pc.Free?
  }

  ghost predicate MapOk(s: State, left: set<int>) {
    && BufOk(s)
    && s.g.mapped == Flying(s) + left
    && (forall b :: b in left ==> b < s.g.nextBuf)
    && (forall t :: 0 <= t < |s.clients| ==> Abandoned(Look(s, t), left))
  }

  // ----- a client's own steps -----

  /** What one step of a client does to the mappings. */
  predicate MapMove(v: View, left: set<int>, v': View) {
    v'.g.mapped == v.g.mapped - Flight(v) + Flight(v') + left
  }

  lemma DmaMaps(v: View, pc: DmaPC, ch: Choice)
    requires v.c.pc == Dma(pc) && LocalOk(v) && Flight(v) <= v.g.mapped
    ensures MapMove(v, {}, DmaStep(v, pc, ch))
  {}

  lemma WaitMaps(v: View, pc: WaitPC, ch: Choice)
    requires v.c.pc == Wait(pc) && LocalOk(v) && Flight(v) <= v.g.mapped
    ensures MapMove(v, Left(v, ch), WaitStep(v, pc, ch))
  {}

  lemma MmioMaps(v: View, pc: MmioPC, ch: Choice)
    requires v.c.pc == Mmio(pc) && LocalOk(v)
    ensures MapMove(v, {}, MmioStep(v, pc, ch))
  {}

  lemma EntryMaps(k: Card, v: View, pc: PrePC, ch: Choice)
    requires v.c.pc == Pre(pc)
    ensures MapMove(v, {}, EntryStep(k, v, pc, ch))
  {}

  lemma LibraryMaps(v: View, pc: LibPC, ch: Choice)
    requires v.c.pc == Lib(pc)
    ensures MapMove(v, {}, LibraryStep(v, pc, ch))
  {}

  lemma LocalMaps(k: Card, v: View, ch: Choice)
    requires LocalOk(v) && Flight(v) <= v.g.mapped
    ensures MapMove(v, Left(v, ch), LocalStep(k, v, ch))
  {
    match v.c.pc
    case Idle =>
    case Lib(pc) => LibraryMaps(v, pc, ch);
    case Pre(pc) => EntryMaps(k, v, pc, ch);
    case Mmio(pc) => MmioMaps(v, pc, ch);
    case Dma(pc) => DmaMaps(v, pc, ch);
    case Wait(pc) => WaitMaps(v, pc, ch);
    case Up(_) =>
    case Free(_) =>
  }

  lemma UserMaps(v: View, u: UserEvent)
    requires UserEnabled(v, u)
    ensures MapMove(v, {}, UserStep(v, u))
  {}

  /** A flight is of the buffer its own handle names. */
  lemma FlightIsOwn(v: View)
    requires LocalOk(v) && InFlight(v)
    ensures v.j.msg == Some(v.c.dma)
  {}

  /** Abandoning is final, and a fresh name has not been abandoned. */
  lemma StaysAbandoned(v: View, ch: Choice, v': View, left: set<int>)
    requires LocalOk(v') && HeapMove(v, v') && Abandoned(v, left) && forall b :: b in left ==> b < v.g.nextBuf
    requires v.c.pc.Up? ==> v'.c.pc.Free?
    requires v.c.pc.Free? ==> v'.j.msg.None?
    ensures Abandoned(v', left)
  {}

  lemma WaysOut(k: Card, v: View, ch: Choice)
    ensures v.c.pc.Up? ==> LocalStep(k, v, ch).c.pc.Free?
    ensures v.c.pc.Free? ==> LocalStep(k, v, ch).j.msg.None?
    ensures Left(v, ch) != {} ==> LocalStep(k, v, ch).c.pc == Up(false) && LocalStep(k, v, ch).j == v.j
  {}

  // ----- the whole system -----

  lemma OthersFlights(s: State, t: nat, u: nat)
    requires BufOk(s) && t < |s.clients| && u < |s.clients| && t != u && InFlight(Look(s, u))
    ensures s.clients[u].dma !in Flight(Look(s, t))
  {
    assert LocalOk(Look(s, t)) && LocalOk(Look(s, u));
    FlightIsOwn(Look(s, u));
    if InFlight(Look(s, t)) {
      FlightIsOwn(Look(s, t));
      assert Owns(s, u, s.clients[u].dma) && Owns(s, t, s.clients[t].dma);
    }
  }

  lemma OtherLooks(s: State, t: nat, v: View, u: nat)
    requires BufOk(s) && t < |s.clients| && v.c.h == s.clients[t].h && u < |s.clients| && u != t
    ensures WellFormed(Store(s, t, v)) && Look(Store(s, t, v), u) == Look(s, u).(g := v.g)
    ensures InFlight(Look(Store(s, t, v), u)) == InFlight(Look(s, u))
  {}

  lemma FlyingName(s: State, t: nat, v: View, b: int)
    requires BufOk(s) && t < |s.clients| && v.c.h == s.clients[t].h
    requires var s' := Store(s, t, v);
      && WellFormed(s') && Look(s', t) == v
      && forall u :: 0 <= u < |s.clients| && u != t ==>
        && s'.clients[u] == s.clients[u] && InFlight(Look(s', u)) == InFlight(Look(s, u))
        && (InFlight(Look(s, u)) ==> s.clients[u].dma !in Flight(Look(s, t)))
    ensures b in Flying(Store(s, t, v)) <==> b in Flying(s) - Flight(Look(s, t)) + Flight(v)
  {
    var s' := Store(s, t, v);
    if b in Flying(s') {
      var u :| 0 <= u < |s'.clients| && InFlight(Look(s', u)) && s'.clients[u].dma == b;
      assert u != t ==> InFlight(Look(s, u)) && s.clients[u].dma == b;
    }
    if b in Flying(s) && b !in Flight(Look(s, t)) {
      var u :| 0 <= u < |s.clients| && InFlight(Look(s, u)) && s.clients[u].dma == b;
      assert u != t && InFlight(Look(s', u)) && s'.clients[u].dma == b;
    }
  }

  lemma FlyingMoves(s: State, t: nat, v: View)
    requires BufOk(s) && t < |s.clients| && v.c.h == s.clients[t].h
    ensures WellFormed(Store(s, t, v))
    ensures Flying(Store(s, t, v)) == Flying(s) - Flight(Look(s, t)) + Flight(v)
  {
    var s' := Store(s, t, v);
    assert Look(s', t) == v;
    forall u | 0 <= u < |s.clients| && u != t
      ensures s'.clients[u] == s.clients[u] && InFlight(Look(s', u)) == InFlight(Look(s, u))
      ensures InFlight(Look(s, u)) ==> s.clients[u].dma !in Flight(Look(s, t))
    {
      OtherLooks(s, t, v, u);
      if InFlight(Look(s, u)) { OthersFlights(s, t, u); }
    }
    forall b
      ensures b in Flying(s') <==> b in Flying(s) - Flight(Look(s, t)) + Flight(v)
    {
      FlyingName(s, t, v, b);
    }
  }

  /** A writer in flight is not on its way out. */
  lemma NotYetLeft(s: State, left: set<int>, t: nat)
    requires MapOk(s, left) && t < |s.clients|
    ensures Flight(Look(s, t)) <= s.g.mapped && Flight(Look(s, t)) !! left
  {
    var v := Look(s, t);
    assert LocalOk(v) && Abandoned(v, left);
    if InFlight(v) {
      FlightIsOwn(v);
      assert s.clients[t].dma in Flying(s);
    }
  }

  lemma OthersAbandoned(s: State, left: set<int>, t: nat, v: View, more: set<int>, u: nat)
    requires MapOk(s, left) && t < |s.clients| && v.c.h == s.clients[t].h && u < |s.clients| && u != t
    requires more <= Flight(Look(s, t))
    ensures WellFormed(Store(s, t, v)) && Abandoned(Look(Store(s, t, v), u), left + more)
  {
    OtherLooks(s, t, v, u);
    assert LocalOk(Look(s, t)) && Abandoned(Look(s, u), left);
    if more != {} {
      FlightIsOwn(Look(s, t));
      assert Owns(s, t, s.clients[t].dma) && !Owns(s, u, s.clients[t].dma);
    }
  }

  lemma LiveName(s: State, t: nat, b: int)
    requires BufOk(s) && t < |s.clients| && b in Flight(Look(s, t))
    ensures b < s.g.nextBuf
  {
    assert LocalOk(Look(s, t));
    FlightIsOwn(Look(s, t));
  }

  lemma StoreMaps(s: State, left: set<int>, t: nat, v: View, more: set<int>)
    requires MapOk(s, left) && t < |s.clients| && v.c.h == s.clients[t].h && BufOk(Store(s, t, v))
    requires MapMove(Look(s, t), more, v) && more <= Flight(Look(s, t)) && Abandoned(v, left + more)
    requires s.g.nextBuf <= v.g.nextBuf
    ensures MapOk(Store(s, t, v), left + more)
  {
    var s' := Store(s, t, v);
    NotYetLeft(s, left, t);
    FlyingMoves(s, t, v);
    assert s'.g.mapped == Flying(s') + (left + more);
    forall u | 0 <= u < |s.clients|
      ensures Abandoned(Look(s', u), left + more)
    {
      if u != t { OthersAbandoned(s, left, t, v, more, u); }
    }
    forall b | b in more
      ensures b < s.g.nextBuf
    {
      LiveName(s, t, b);
    }
  }

  lemma ThreadMaps(k: Card, s: State, left: set<int>, t: nat, ch: Choice)
    requires MapOk(s, left) && t < |s.clients| && Enabled(s, Thread(t, ch))
    ensures MapOk(Next(k, s, Thread(t, ch)), left + Left(Look(s, t), ch))
  {
    var v := Look(s, t);
    var v' := LocalStep(k, v, ch);
    assert LocalOk(v) && Abandoned(v, left);
    LocalBuf(k, v, ch);
    StoreBuf(s, t, v');
    NotYetLeft(s, left, t);
    LocalMaps(k, v, ch);
    WaysOut(k, v, ch);
    StaysAbandoned(v, ch, v', left);
    StoreMaps(s, left, t, v', Left(v, ch));
  }

  lemma UserKeepsMaps(k: Card, s: State, left: set<int>, t: nat, u: UserEvent)
    requires MapOk(s, left) && t < |s.clients| && Enabled(s, User(t, u))
    ensures MapOk(Next(k, s, User(t, u)), left)
  {
    var v := Look(s, t);
    var v' := UserStep(v, u);
    assert LocalOk(v) && Abandoned(v, left);
    UserBuf(v, u);
    StoreBuf(s, t, v');
    UserMaps(v, u);
    assert left + {} == left;
    StoreMaps(s, left, t, v', {});
  }

  /** Everyone is where they were, with the same mappings. */
  predicate SameFlights(s: State, s': State) {
    && WellFormed(s) && WellFormed(s') && |s'.clients| == |s.clients|
    && s'.g.mapped == s.g.mapped && s'.g.nextBuf == s.g.nextBuf
    && forall t :: 0 <= t < |s.clients| ==>
      Look(s', t).j == Look(s, t).j && s'.clients[t].pc == s.clients[t].pc && s'.clients[t].dma == s.clients[t].dma
  }

  lemma FlightsKept(s: State, s': State, left: set<int>)
    requires MapOk(s, left) && BufOk(s') && SameFlights(s, s')
    ensures MapOk(s', left)
  {
    assert forall t :: 0 <= t < |s.clients| ==> InFlight(Look(s', t)) == InFlight(Look(s, t));
    assert Flying(s') == Flying(s);
    assert forall t :: 0 <= t < |s.clients| ==> Abandoned(Look(s, t), left) && Abandoned(Look(s', t), left);
  }

  lemma CardFlights(k: Card, s: State, e: CardEvent)
    requires WellFormed(s) && CardEnabled(s.g.dev, e)
    ensures SameFlights(s, s.(g := CardStep(k, s.g, e)))
  {}

  lemma IrqFlights(s: State, i: IrqEvent)
    requires WellFormed(s) && IrqEnabled(s, i)
    ensures SameFlights(s, IrqStep(s, i))
  {
    IrqShape(s, i);
  }

  lemma MapStep(k: Card, s: State, e: Event, left: set<int>)
    requires k.Good() && MapOk(s, left) && Enabled(s, e)
    ensures MapOk(Next(k, s, e), left + LeftBy(s, e))
  {
    match e
    case Thread(t, ch) => ThreadMaps(k, s, left, t, ch);
    case User(t, u) =>
      UserKeepsMaps(k, s, left, t, u);
      assert left + {} == left;
    case Hardware(c) =>
      CardBuf(k, s, c);
      CardFlights(k, s, c);
      FlightsKept(s, Next(k, s, e), left);
      assert left + {} == left;
    case Irq(i) =>
      IrqBuf(s, i);
      IrqFlights(s, i);
      FlightsKept(s, Next(k, s, e), left);
      assert left + {} == left;
  }

  lemma InitialMaps(s: State)
    requires Initial(s) && Distinct(s)
    ensures MapOk(s, {})
  {
    InitialBuf(s);
    assert Flying(s) == {};
  }

  /**
   * In every state of every run, whatever signals and stores it holds: the mapped buffers are
   * exactly those of the writes in flight and those whose waits were interrupted, and no name
   * of the latter is ever mapped or unmapped again.
   */
  lemma {:induction false} MapRun(k: Card, tr: seq<State>, ev: seq<Event>, m: nat)
    requires k.Good() && Run(k, tr, ev) && Initial(tr[0]) && Distinct(tr[0]) && m <= |ev|
    ensures MapOk(tr[m], LeftBehind(tr, ev, m))
  {
    if m == 0 {
      InitialMaps(tr[0]);
    } else {
      MapRun(k, tr, ev, m - 1);
      MapStep(k, tr[m - 1], ev[m - 1], LeftBehind(tr, ev, m - 1));
    }
  }

  lemma {:induction false} LeftNothing(tr: seq<State>, ev: seq<Event>, m: nat)
    requires m <= |ev| < |tr|
    ensures LeftBehind(tr, ev, m) == {} <==> forall n :: 0 <= n < m ==> LeftBy(tr[n], ev[n]) == {}
  {
    if m > 0 { LeftNothing(tr, ev, m - 1); }
  }

  /** Map and unmap balance, once every call has returned, exactly if no DMA wait was interrupted. */
  lemma BalancedExactly(k: Card, tr: seq<State>, ev: seq<Event>, m: nat)
    requires k.Good() && Run(k, tr, ev) && Initial(tr[0]) && Distinct(tr[0]) && m <= |ev|
    requires forall t :: 0 <= t < |tr[m].clients| ==> tr[m].clients[t].pc.Idle?
    ensures tr[m].g.mapped == LeftBehind(tr, ev, m)
    ensures tr[m].g.mapped == {} <==> forall n :: 0 <= n < m ==> LeftBy(tr[n], ev[n]) == {}
  {
    MapRun(k, tr, ev, m);
    assert Flying(tr[m]) == {};
    LeftNothing(tr, ev, m);
  }
}
