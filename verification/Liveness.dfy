/**
 * Every library call returns: in every fair infinite schedule with an uninterrupted handler and
 * unmixed interrupt modes, if the semaphore does not pass over a waiting writer for ever.
 */
module Liveness {
  import opened Types
  import opened Machine
  import opened Semaphore
  import opened Buffers
  import opened Wakeups
  import opened Fairness
  import opened EndToEnd

  // ----- how far a call is from its end -----

  /** The statements of one write still to come; the loop's top comes round once for each chunk. */
  function Place(v: View): nat {
    match v.c.pc
    case Idle => 0
    case Lib(IoEncrypt) => 19
    case Lib(IoMmap) => 18
    case Lib(LoopTop) => if v.c.l.rem == 0 then 17 else 0
    case Pre(Entry) => 16
    case Pre(ProbeWrite) => 15
    case Pre(ProbeRead) => 14
    case Pre(Alloc) => 13
    case Pre(CopyIn) => 12
    case Pre(Down) => 11
    case Mmio(LoadKey) => 10
    case Mmio(MLen) => 9
    case Mmio(MData) => 8
    case Mmio(MStatus) => 7
    case Mmio(MStart) => 6
    case Mmio(MPoll) => 5
    case Mmio(MOut) => 4
    case Mmio(MUser) => 3
    case Dma(DMap) => 9
    case Dma(DAddr) => 8
    case Dma(DLen) => 7
    case Dma(DCmd) => 6
    case Dma(DPoll) => 5
    case Dma(DUnmap) => 4
    case Dma(DUser) => 3
    case Wait(_) => 5
    case Up(_) => 2
    case Free(_) => 1
  }

  function Measure(v: View): nat { v.c.l.rem * 40 + Place(v) }

  /** Nearer to the end, or there. */
  predicate Forward(v: View, v': View) { v'.c.pc.Idle? || Measure(v') < Measure(v) }

  /** Neither between calls nor in a wait: the client's next statement takes it on. */
  predicate Moving(pc: PC) { !pc.Idle? && !Waiting(pc) }

  lemma LibraryForward(v: View, pc: LibPC, ch: Choice)
    requires v.c.pc == Lib(pc)
    ensures Forward(v, LibraryStep(v, pc, ch))
  {}

  lemma EntryForward(k: Card, v: View, pc: PrePC, ch: Choice)
    requires v.c.pc == Pre(pc)
    ensures Forward(v, EntryStep(k, v, pc, ch))
  {}

  lemma MmioForward(v: View, pc: MmioPC, ch: Choice)
    requires v.c.pc == Mmio(pc) && !pc.MPoll?
    ensures Forward(v, MmioStep(v, pc, ch))
  {}

  lemma DmaForward(v: View, pc: DmaPC, ch: Choice)
    requires v.c.pc == Dma(pc) && !pc.DPoll?
    ensures Forward(v, DmaStep(v, pc, ch))
  {}

  lemma EndForward(k: Card, v: View, ch: Choice)
    requires LocalOk(v) && (v.c.pc.Up? || v.c.pc.Free?)
    ensures Forward(v, LocalStep(k, v, ch))
  {}

  lemma OwnForward(k: Card, v: View, ch: Choice)
    requires LocalOk(v) && Moving(v.c.pc)
    ensures Forward(v, LocalStep(k, v, ch))
  {
    match v.c.pc
    case Lib(pc) => LibraryForward(v, pc, ch);
    case Pre(pc) => EntryForward(k, v, pc, ch);
    case Mmio(pc) => MmioForward(v, pc, ch);
    case Dma(pc) => DmaForward(v, pc, ch);
    case _ => EndForward(k, v, ch);
  }

  /** The end of a wait takes the client on, whichever way it ends. */
  lemma WaitForward(v: View, v': View)
    requires Waiting(v.c.pc) && v'.c.l == v.c.l && (v'.c.pc == AfterOp(v.j) || v'.c.pc == Up(false))
    ensures Forward(v, v')
  {}

  // ----- one client's statements in an infinite run -----

  lemma StateAt(k: Card, tr: nat -> State, ev: nat -> Event, n: nat)
    requires k.Good() && PacedForever(k, tr, ev)
    ensures WakeOk(k, tr(n)) && Enabled(tr(n), ev(n)) && tr(n + 1) == Next(k, tr(n), ev(n))
  {
    var ss, es := States(tr, n + 1), Events(ev, n + 1);
    assert ss[n] == tr(n) && ss[n + 1] == tr(n + 1) && es[n] == ev(n);
    ForeverWakeOk(k, tr, ev, n);
    assert Enabled(ss[n], es[n]) && ss[n + 1] == Next(k, ss[n], es[n]);
  }

  predicate At(s: State, t: nat) { WellFormed(s) && t < |s.clients| && !s.clients[t].pc.Idle? }

  /** The client's statement at this event. */
  predicate Steps(e: Event, t: nat) { e.Thread? && e.t == t }

  predicate SamePlaceAt(s: State, s': State, t: nat) {
    WellFormed(s) && WellFormed(s') && t < |s.clients| && t < |s'.clients| && SamePlace(Look(s, t), Look(s', t))
  }

  lemma PlaceOn(k: Card, tr: nat -> State, ev: nat -> Event, t: nat, n: nat)
    requires k.Good() && PacedForever(k, tr, ev) && At(tr(n), t) && !Steps(ev(n), t)
    ensures SamePlaceAt(tr(n), tr(n + 1), t)
  {
    StateAt(k, tr, ev, n);
    OthersPlace(k, tr(n), ev(n), t);
  }

  /** The client's first statement from `i` on, at `j` at the latest if there is one. */
  lemma {:induction false} FirstStep(k: Card, tr: nat -> State, ev: nat -> Event, t: nat, i: nat, j: nat)
    returns (n: nat)
    requires k.Good() && PacedForever(k, tr, ev) && i <= j && At(tr(i), t)
    ensures i <= n <= j && SamePlaceAt(tr(i), tr(n), t) && (Steps(ev(n), t) || n == j)
    decreases j - i
  {
    if i == j || Steps(ev(i), t) {
      n := i;
    } else {
      PlaceOn(k, tr, ev, t, i);
      n := FirstStep(k, tr, ev, t, i + 1, j);
    }
  }

  /** Where it is, the client's next statement stays enabled until it takes it. */
  lemma StaysEnabled(s: State, s': State, t: nat)
    requires SamePlaceAt(s, s', t) && Moving(s.clients[t].pc) && s.clients[t].pc != Pre(Down)
    ensures Enabled(s', Thread(t, Ok))
  {}

  /** Fairness to the client: it takes its next statement. */
  lemma NextStep(k: Card, tr: nat -> State, ev: nat -> Event, t: nat, i: nat) returns (n: nat)
    requires k.Good() && PacedForever(k, tr, ev) && FairTo(tr, ev, t) && At(tr(i), t)
    requires Moving(tr(i).clients[t].pc) && tr(i).clients[t].pc != Pre(Down)
    ensures i <= n && SamePlaceAt(tr(i), tr(n), t) && Steps(ev(n), t)
  {
    var e := Thread(t, Ok);
    assert Fair(tr, ev, e) && Served(tr, ev, e, i);
    var j: nat :| i <= j && (!Enabled(tr(j), e) || Matches(ev(j), e));
    n := FirstStep(k, tr, ev, t, i, j);
    if !Steps(ev(n), t) { StaysEnabled(tr(i), tr(n), t); }
  }

  predicate ForwardAt(s: State, s': State, t: nat) {
    WellFormed(s) && WellFormed(s') && t < |s.clients| && t < |s'.clients| && Forward(Look(s, t), Look(s', t))
  }

  lemma PlaceForward(v: View, w: View, v': View)
    requires SamePlace(v, w) && Forward(w, v')
    ensures Forward(v, v')
  {}

  lemma StepLooks(k: Card, s: State, e: Event, t: nat)
    requires Enabled(s, e) && Steps(e, t)
    ensures WellFormed(Next(k, s, e)) && t < |Next(k, s, e).clients|
    ensures Look(Next(k, s, e), t) == LocalStep(k, Look(s, t), e.ch)
  {
    LocalMoves(k, Look(s, t), e.ch);
  }

  /** A statement of a client that is not waiting takes it on. */
  lemma StepForward(k: Card, tr: nat -> State, ev: nat -> Event, t: nat, i: nat, n: nat)
    requires k.Good() && PacedForever(k, tr, ev) && SamePlaceAt(tr(i), tr(n), t) && Steps(ev(n), t)
    requires Moving(tr(i).clients[t].pc)
    ensures ForwardAt(tr(i), tr(n + 1), t)
  {
    StateAt(k, tr, ev, n);
    assert LocalOk(Look(tr(n), t));
    StepLooks(k, tr(n), ev(n), t);
    OwnForward(k, Look(tr(n), t), ev(n).ch);
    PlaceForward(Look(tr(i), t), Look(tr(n), t), Look(tr(n + 1), t));
  }

  /** Whoever leaves the section leaves the semaphore free. */
  lemma SemOnLeaving(k: Card, tr: nat -> State, ev: nat -> Event, t: nat, i: nat, j: nat)
    requires k.Good() && PacedForever(k, tr, ev) && SamePlaceAt(tr(i), tr(j), t) && Steps(ev(j), t)
    requires t < |tr(j + 1).clients|
    ensures InSection(tr(i).clients[t].pc) && !InSection(tr(j + 1).clients[t].pc) ==> tr(j + 1).g.sem == 1
  {
    StateAt(k, tr, ev, j);
    var v := Look(tr(j), t);
    LocalMoves(k, v, ev(j).ch);
    assert Inside(tr(j), t) == InSection(v.c.pc);
    assert tr(j + 1).clients[t] == LocalStep(k, v, ev(j).ch).c;
  }

  /** Anywhere but at the semaphore fairness takes a client on. */
  lemma Onward(k: Card, tr: nat -> State, ev: nat -> Event, t: nat, i: nat) returns (n: nat)
    requires k.Good() && PacedForever(k, tr, ev) && FairTo(tr, ev, t)
    requires At(tr(i), t) && tr(i).clients[t].pc != Pre(Down)
    ensures i < n && ForwardAt(tr(i), tr(n), t)
    ensures InSection(tr(i).clients[t].pc) && !InSection(tr(n).clients[t].pc) ==> tr(n).g.sem == 1
  {
    if Waiting(tr(i).clients[t].pc) {
      n := FairWaitEnds(k, tr, ev, t, i);
      StateAt(k, tr, ev, n);
      WaitForward(Look(tr(i), t), Look(tr(n), t));
    } else {
      var j := NextStep(k, tr, ev, t, i);
      StepForward(k, tr, ev, t, i, j);
      n := j + 1;
      SemOnLeaving(k, tr, ev, t, i, j);
    }
  }

  /** Whoever holds the semaphore gives it back. */
  lemma {:induction false} HolderLeaves(k: Card, tr: nat -> State, ev: nat -> Event, u: nat, i: nat) returns (n: nat)
    requires k.Good() && PacedForever(k, tr, ev) && FairTo(tr, ev, u)
    requires WellFormed(tr(i)) && u < |tr(i).clients| && InSection(tr(i).clients[u].pc)
    ensures i < n && tr(n).g.sem == 1
    decreases Measure(Look(tr(i), u))
  {
    n := Onward(k, tr, ev, u, i);
    if InSection(tr(n).clients[u].pc) {
      n := HolderLeaves(k, tr, ev, u, n);
    }
  }

  ghost predicate FairToAll(tr: nat -> State, ev: nat -> Event) { forall t: nat :: FairTo(tr, ev, t) }

  /** From any point on the semaphore is free at some time. */
  lemma SemFrees(k: Card, tr: nat -> State, ev: nat -> Event, i: nat) returns (n: nat)
    requires k.Good() && PacedForever(k, tr, ev) && FairToAll(tr, ev)
    ensures i <= n && tr(n).g.sem == 1
  {
    StateAt(k, tr, ev, i);
    if tr(i).g.sem == 1 {
      n := i;
    } else {
      var u :| 0 <= u < |tr(i).clients| && Inside(tr(i), u);
      assert FairTo(tr, ev, u);
      n := HolderLeaves(k, tr, ev, u, i);
    }
  }

  // ----- at the semaphore -----

  /** The client waits for the semaphore, which is free. */
  predicate MayEnter(s: State, t: nat) { t < |s.clients| && s.clients[t].pc == Pre(Down) && s.g.sem > 0 }

  ghost predicate NeverAgain(tr: nat -> State, t: nat, m: nat) { forall n: nat :: m <= n ==> !MayEnter(tr(n), t) }

  ghost predicate StepsFrom(ev: nat -> Event, t: nat, i: nat) { exists j: nat :: i <= j && Steps(ev(j), t) }

  /** From `i` on the client takes a statement, or there is a time after which it may not enter again. */
  ghost predicate NotPassedOver(tr: nat -> State, ev: nat -> Event, t: nat, i: nat) {
    StepsFrom(ev, t, i) || exists m: nat :: NeverAgain(tr, t, m)
  }

  /** The semaphore does not pass over a client that may enter again and again. */
  ghost predicate FairSemaphore(tr: nat -> State, ev: nat -> Event, t: nat) {
    forall i: nat :: NotPassedOver(tr, ev, t, i)
  }

  /** A client that never takes a statement stays where it is. */
  lemma StaysAtDown(k: Card, tr: nat -> State, ev: nat -> Event, t: nat, i: nat, n: nat)
    requires k.Good() && PacedForever(k, tr, ev) && i <= n && At(tr(i), t)
    requires forall j: nat :: i <= j ==> !Steps(ev(j), t)
    ensures SamePlaceAt(tr(i), tr(n), t)
  {
    var m := FirstStep(k, tr, ev, t, i, n);
  }

  /** It would find the semaphore free for ever. */
  lemma MayEnterLater(k: Card, tr: nat -> State, ev: nat -> Event, t: nat, i: nat, m: nat)
    requires k.Good() && PacedForever(k, tr, ev) && FairToAll(tr, ev)
    requires At(tr(i), t) && tr(i).clients[t].pc == Pre(Down)
    requires !StepsFrom(ev, t, i)
    ensures !NeverAgain(tr, t, m)
  {
    var l := SemFrees(k, tr, ev, if i <= m then m else i);
    forall j: nat | i <= j
      ensures !Steps(ev(j), t)
    {
    }
    StaysAtDown(k, tr, ev, t, i, l);
    assert MayEnter(tr(l), t);
  }

  /** At the semaphore too the client takes its next statement. */
  lemma Enters(k: Card, tr: nat -> State, ev: nat -> Event, t: nat, i: nat) returns (n: nat)
    requires k.Good() && PacedForever(k, tr, ev) && FairToAll(tr, ev) && FairSemaphore(tr, ev, t)
    requires At(tr(i), t) && tr(i).clients[t].pc == Pre(Down)
    ensures i < n && ForwardAt(tr(i), tr(n), t)
  {
    assert NotPassedOver(tr, ev, t, i);
    if !StepsFrom(ev, t, i) {
      var m: nat :| NeverAgain(tr, t, m);
      MayEnterLater(k, tr, ev, t, i, m);
    }
    var j: nat :| i <= j && Steps(ev(j), t);
    var f := FirstStep(k, tr, ev, t, i, j);
    StepForward(k, tr, ev, t, i, f);
    n := f + 1;
  }

  // ----- every call returns -----

  /** In such a schedule a client in the middle of a library call comes to its end. */
  lemma {:induction false} CallReturns(k: Card, tr: nat -> State, ev: nat -> Event, t: nat, i: nat) returns (n: nat)
    requires k.Good() && PacedForever(k, tr, ev) && FairToAll(tr, ev) && FairSemaphore(tr, ev, t)
    requires t < |tr(i).clients|
    ensures i <= n && t < |tr(n).clients| && tr(n).clients[t].pc.Idle?
    decreases if WellFormed(tr(i)) && t < |tr(i).clients| then Measure(Look(tr(i), t)) else 0
  {
    StateAt(k, tr, ev, i);
    if tr(i).clients[t].pc.Idle? {
      n := i;
    } else {
      assert FairTo(tr, ev, t);
      if tr(i).clients[t].pc == Pre(Down) {
        n := Enters(k, tr, ev, t, i);
      } else {
        n := Onward(k, tr, ev, t, i);
      }
      if !tr(n).clients[t].pc.Idle? { n := CallReturns(k, tr, ev, t, n); }
    }
  }
}
