/**
 * Waits end. In a paced run no event at all takes a waiting writer further from the end of its
 * wait, at most seven helpful ones can happen while it waits, and one is always enabled; so
 * every fair schedule ends the wait, with the operation done unless a signal cuts it short.
 */
module Fairness {
  import opened Types
  import opened Machine
  import opened Semaphore
  import opened Frames
  import opened Isolation
  import opened Wakeups

  // ----- one event -----

  /** No further away: nearer, or as far with the same helpful event. */
  predicate Steady(v: View, v': View, t: nat) {
    Rank(v') < Rank(v) || (Rank(v') == Rank(v) && Helpful(v', t) == Helpful(v, t))
  }

  /** Still waiting and no further away, or past the wait with the operation done. */
  predicate OnCourse(v: View, v': View, t: nat) {
    && v'.j == v.j && v'.c.l == v.c.l
    && if Waiting(v'.c.pc) then Steady(v, v', t) else v'.c.pc == AfterOp(v.j)
  }

  /** The part of the card a wait depends on. */
  predicate SameOps(g: Shared, g': Shared) {
    g'.dev.mmio == g.dev.mmio && SameOp(g, g') && g'.dev.istatus == g.dev.istatus
  }

  lemma OthersCourse(v: View, g: Shared, t: nat)
    requires Waiting(v.c.pc) && SameOps(v.g, g)
    ensures OnCourse(v, v.(g := g), t)
  {}

  lemma WaitCourse(k: Card, v: View, pc: WaitPC, ch: Choice, t: nat)
    requires v.c.pc == Wait(pc) && SecOk(k, v, false) && ThreadEnabled(v, ch) && !Interrupted(v, ch)
    ensures OnCourse(v, WaitStep(v, pc, ch), t)
  {}

  /** The client's own steps, spurious wake-ups by signals among them. */
  lemma OwnCourse(k: Card, v: View, ch: Choice, t: nat)
    requires SecOk(k, v, false) && Waiting(v.c.pc) && ThreadEnabled(v, ch) && !Interrupted(v, ch)
    ensures OnCourse(v, LocalStep(k, v, ch), t)
  {
    match v.c.pc
    case Wait(pc) => WaitCourse(k, v, pc, ch, t);
    case Mmio(pc) => assert MmioStep(v, pc, ch).j == v.j;
    case Dma(pc) => assert DmaStep(v, pc, ch).j == v.j;
  }

  lemma OrKeeps(a: bv32, b: bv32)
    requires a != 0
    ensures a | b != 0
  {}

  lemma RaiseCourse(v: View, t: nat)
    requires Waiting(v.c.pc)
    ensures OnCourse(v, v.(g := v.g.(dev := RaiseStep(v.g.dev))), t)
  {
    if v.g.dev.istatus != 0 { OrKeeps(v.g.dev.istatus, v.g.dev.owed); }
  }

  lemma TransformCourse(k: Card, v: View, dma: bool, t: nat)
    requires Waiting(v.c.pc) && CardEnabled(v.g.dev, Transform(dma))
    ensures OnCourse(v, v.(g := TransformStep(k, v.g, dma)), t)
  {}

  lemma FinishCourse(v: View, dma: bool, t: nat)
    requires Waiting(v.c.pc) && CardEnabled(v.g.dev, Finish(dma))
    ensures OnCourse(v, v.(g := v.g.(dev := FinishStep(v.g.dev, dma))), t)
  {}

  lemma CardCourse(k: Card, v: View, e: CardEvent, t: nat)
    requires Waiting(v.c.pc) && CardEnabled(v.g.dev, e)
    ensures OnCourse(v, v.(g := CardStep(k, v.g, e)), t)
  {
    match e
    case Poke(_, _) => OthersCourse(v, CardStep(k, v.g, e), t);
    case Transform(dma) => TransformCourse(k, v, dma, t);
    case Finish(dma) => FinishCourse(v, dma, t);
    case Raise => RaiseCourse(v, t);
  }

  /** Acknowledged, and woken if it slept. */
  lemma IrqCourse(v: View, v': View, t: nat)
    requires Waiting(v.c.pc) && v'.j == v.j && v'.g.dev == v.g.dev.(istatus := v'.g.dev.istatus)
    requires v'.c == v.c || v'.c == v.c.(woken := true)
    requires v.c.pc == Wait(Sleep) ==> v'.c.woken
    ensures OnCourse(v, v', t)
  {}

  predicate StepOn(s: State, s': State, t: nat) {
    WellFormed(s) && WellFormed(s') && t < |s.clients| && t < |s'.clients| && OnCourse(Look(s, t), Look(s', t), t)
  }

  lemma OwnOn(k: Card, s: State, t: nat, ch: Choice)
    requires WakeOk(k, s) && t < |s.clients| && Waiting(s.clients[t].pc)
    requires ThreadEnabled(Look(s, t), ch) && !Interrupted(Look(s, t), ch)
    ensures StepOn(s, Store(s, t, LocalStep(k, Look(s, t), ch)), t)
  {
    var v := Look(s, t);
    assert SecOk(k, v, false);
    LocalMoves(k, v, ch);
    OwnCourse(k, v, ch, t);
    assert Look(Store(s, t, LocalStep(k, v, ch)), t) == LocalStep(k, v, ch);
  }

  lemma OutsideOps(k: Card, v: View, ch: Choice)
    requires !InSection(v.c.pc)
    ensures SameOps(v.g, LocalStep(k, v, ch).g)
  {
    LocalFramed(k, v, ch);
  }

  /** Whoever else runs is outside the section. */
  lemma OtherOn(k: Card, s: State, t: nat, u: nat, ch: Choice)
    requires WakeOk(k, s) && t < |s.clients| && Waiting(s.clients[t].pc) && u < |s.clients| && u != t
    requires ThreadEnabled(Look(s, u), ch)
    ensures StepOn(s, Store(s, u, LocalStep(k, Look(s, u), ch)), t)
  {
    var v, v' := Look(s, u), LocalStep(k, Look(s, u), ch);
    assert Inside(s, t) && !Inside(s, u);
    LocalMoves(k, v, ch);
    OutsideOps(k, v, ch);
    OthersCourse(Look(s, t), v'.g, t);
    assert Look(Store(s, u, v'), t) == Look(s, t).(g := v'.g);
  }

  lemma IrqOn(k: Card, s: State, t: nat)
    requires WakeOk(k, s) && t < |s.clients| && Waiting(s.clients[t].pc) && IrqEnabled(s, Atomic)
    ensures StepOn(s, IrqStep(s, Atomic), t)
  {
    assert Hopeful(Look(s, t));
    IrqWakes(k, s);
    IrqEffect(s, Atomic, t);
    IrqCourse(Look(s, t), Look(IrqStep(s, Atomic), t), t);
  }

  /** A signal cuts the client's own wait short. */
  predicate CutOff(s: State, e: Event, t: nat) {
    WellFormed(s) && t < |s.clients| && e.Thread? && e.t == t && Interrupted(Look(s, t), e.ch)
  }

  /** And that is the end of it. */
  lemma CutLeaves(k: Card, s: State, e: Event, t: nat)
    requires Enabled(s, e) && CutOff(s, e, t)
    ensures t < |Next(k, s, e).clients| && Next(k, s, e).clients[t].pc == Up(false)
    ensures Next(k, s, e).clients[t].l == s.clients[t].l
  {}

  /** Any other event of anybody leaves a waiting client on course. */
  lemma AnyEvent(k: Card, s: State, e: Event, t: nat)
    requires WakeOk(k, s) && t < |s.clients| && Waiting(s.clients[t].pc)
    requires Enabled(s, e) && Whole(e) && !CutOff(s, e, t)
    ensures StepOn(s, Next(k, s, e), t)
  {
    match e
    case Thread(u, ch) => if u == t { OwnOn(k, s, t, ch); } else { OtherOn(k, s, t, u, ch); }
    case User(u, ue) => UserShape(s, u, ue);
    case Hardware(c) => CardCourse(k, Look(s, t), c, t);
    case Irq(_) => IrqOn(k, s, t);
  }

  // ----- finite runs: a budget of helpful events -----

  /** The same event, or the same client's next statement whichever way it goes. */
  predicate Matches(e: Event, h: Event) { if h.Thread? then e.Thread? && e.t == h.t else e == h }

  /** `e` is the event client `t` is waiting for. */
  predicate IsHelpful(s: State, e: Event, t: nat) {
    WellFormed(s) && t < |s.clients| && Matches(e, Helpful(Look(s, t), t))
  }

  /** A waiting client's next statement can go only one way, unless a signal cuts the wait short. */
  lemma OneWay(k: Card, v: View, ch: Choice)
    requires Waiting(v.c.pc) && !Interrupted(v, ch)
    ensures LocalStep(k, v, ch) == LocalStep(k, v, Ok)
  {}

  predicate WaitsAt(s: State, t: nat) { WellFormed(s) && t < |s.clients| && Waiting(s.clients[t].pc) }

  /** The helpful events between `i` and `j`. */
  function HelpfulEvents(tr: seq<State>, ev: seq<Event>, t: nat, i: nat, j: nat): nat
    requires i <= j <= |ev| && |tr| == |ev| + 1
    decreases j
  {
    if i == j then 0 else HelpfulEvents(tr, ev, t, i, j - 1) + if IsHelpful(tr[j - 1], ev[j - 1], t) then 1 else 0
  }

  /** On course, and nearer after the helpful event. */
  predicate Counted(s: State, e: Event, s': State, t: nat) {
    && StepOn(s, s', t)
    && (IsHelpful(s, e, t) && Waiting(s'.clients[t].pc) ==> Rank(Look(s', t)) < Rank(Look(s, t)))
  }

  lemma EventCounted(k: Card, s: State, e: Event, t: nat)
    requires WakeOk(k, s) && WaitsAt(s, t) && Enabled(s, e) && Whole(e) && !CutOff(s, e, t)
    ensures Counted(s, e, Next(k, s, e), t)
  {
    AnyEvent(k, s, e, t);
    if IsHelpful(s, e, t) {
      HelpfulStep(k, s, t);
      if e.Thread? { OneWay(k, Look(s, t), e.ch); }
    }
  }

  lemma CountedAt(k: Card, tr: seq<State>, ev: seq<Event>, t: nat, n: nat)
    requires k.Good() && PacedRun(k, tr, ev) && n < |ev| && WaitsAt(tr[n], t) && !CutOff(tr[n], ev[n], t)
    ensures Counted(tr[n], ev[n], tr[n + 1], t)
  {
    NoLostWakeup(k, tr, ev, n);
    assert Enabled(tr[n], ev[n]) && tr[n + 1] == Next(k, tr[n], ev[n]);
    EventCounted(k, tr[n], ev[n], t);
  }

  /** A client that still waits has not been cut off. */
  lemma NotCut(k: Card, tr: seq<State>, ev: seq<Event>, t: nat, n: nat)
    requires Run(k, tr, ev) && n < |ev| && WaitsAt(tr[n + 1], t)
    ensures !CutOff(tr[n], ev[n], t)
  {
    assert Enabled(tr[n], ev[n]) && tr[n + 1] == Next(k, tr[n], ev[n]);
    if CutOff(tr[n], ev[n], t) { CutLeaves(k, tr[n], ev[n], t); }
  }

  lemma {:induction false} BudgetChain(tr: seq<State>, ev: seq<Event>, t: nat, i: nat, j: nat)
    requires i <= j <= |ev| && |tr| == |ev| + 1
    requires forall n :: i <= n <= j ==> WaitsAt(tr[n], t)
    requires forall n :: i <= n < j ==> Counted(tr[n], ev[n], tr[n + 1], t)
    ensures WaitsAt(tr[i], t) && WaitsAt(tr[j], t)
    ensures HelpfulEvents(tr, ev, t, i, j) + Rank(Look(tr[j], t)) <= Rank(Look(tr[i], t)) <= 7
    decreases j
  {
    assert WaitsAt(tr[i], t) && WaitsAt(tr[j], t);
    if i < j {
      BudgetChain(tr, ev, t, i, j - 1);
      assert Counted(tr[j - 1], ev[j - 1], tr[j], t);
    }
  }

  /**
   * As long as a client waits, every helpful event is paid for by its rank, which is at most
   * seven and which nothing ever raises; and the next helpful event is enabled.
   */
  lemma HelpfulBudget(k: Card, tr: seq<State>, ev: seq<Event>, t: nat, i: nat, j: nat)
    requires k.Good() && PacedRun(k, tr, ev) && i <= j <= |ev|
    requires forall n :: i <= n <= j ==> WaitsAt(tr[n], t)
    ensures WaitsAt(tr[i], t) && WaitsAt(tr[j], t)
    ensures HelpfulEvents(tr, ev, t, i, j) + Rank(Look(tr[j], t)) <= Rank(Look(tr[i], t)) <= 7
    ensures Enabled(tr[j], Helpful(Look(tr[j], t), t))
  {
    forall n | i <= n < j
      ensures Counted(tr[n], ev[n], tr[n + 1], t)
    {
      assert WaitsAt(tr[n], t) && WaitsAt(tr[n + 1], t);
      NotCut(k, tr, ev, t, n);
      CountedAt(k, tr, ev, t, n);
    }
    BudgetChain(tr, ev, t, i, j);
    NoLostWakeup(k, tr, ev, j);
    HelpfulStep(k, tr[j], t);
  }

  // ----- infinite runs: fairness -----

  function States(tr: nat -> State, n: nat): seq<State> { seq(n + 1, i requires 0 <= i <= n => tr(i)) }

  function Events(ev: nat -> Event, n: nat): seq<Event> { seq(n, i requires 0 <= i < n => ev(i)) }

  /** Every finite part of the run is paced. */
  ghost predicate PacedForever(k: Card, tr: nat -> State, ev: nat -> Event) {
    forall n: nat :: PacedRun(k, States(tr, n), Events(ev, n))
  }

  /** From `i` on, the event happens or is not enabled at some point. */
  ghost predicate Served(tr: nat -> State, ev: nat -> Event, e: Event, i: nat) {
    exists j: nat :: i <= j && (!Enabled(tr(j), e) || Matches(ev(j), e))
  }

  /** Weak fairness: the event does not stay enabled for ever without happening. */
  ghost predicate Fair(tr: nat -> State, ev: nat -> Event, e: Event) { forall i: nat :: Served(tr, ev, e, i) }

  ghost predicate FairTo(tr: nat -> State, ev: nat -> Event, t: nat) {
    forall e :: Useful(e, t) ==> Fair(tr, ev, e)
  }

  lemma HelpfulUseful(k: Card, s: State, t: nat)
    requires WakeOk(k, s) && WaitsAt(s, t)
    ensures var e := Helpful(Look(s, t), t); Enabled(s, e) && Useful(e, t)
    ensures 0 < Rank(Look(s, t)) <= 7
  {
    HelpfulStep(k, s, t);
    assert Hopeful(Look(s, t));
    if Helpful(Look(s, t), t).Hardware? { CardHelps(k, Look(s, t), t); }
  }

  lemma ForeverWakeOk(k: Card, tr: nat -> State, ev: nat -> Event, n: nat)
    requires k.Good() && PacedForever(k, tr, ev)
    ensures WakeOk(k, tr(n))
  {
    var ss, es := States(tr, n), Events(ev, n);
    assert ss[n] == tr(n);
    NoLostWakeup(k, ss, es, n);
  }

  lemma ForeverCounted(k: Card, tr: nat -> State, ev: nat -> Event, t: nat, n: nat)
    requires k.Good() && PacedForever(k, tr, ev) && WaitsAt(tr(n), t) && !CutOff(tr(n), ev(n), t)
    ensures Counted(tr(n), ev(n), tr(n + 1), t)
  {
    var ss, es := States(tr, n + 1), Events(ev, n + 1);
    assert ss[n] == tr(n) && ss[n + 1] == tr(n + 1) && es[n] == ev(n);
    CountedAt(k, ss, es, t, n);
  }

  lemma ForeverNotCut(k: Card, tr: nat -> State, ev: nat -> Event, t: nat, n: nat)
    requires k.Good() && PacedForever(k, tr, ev) && WaitsAt(tr(n + 1), t)
    ensures !CutOff(tr(n), ev(n), t)
  {
    var ss, es := States(tr, n + 1), Events(ev, n + 1);
    assert ss[n] == tr(n) && ss[n + 1] == tr(n + 1) && es[n] == ev(n);
    NotCut(k, ss, es, t, n);
  }

  /** Or a signal has cut it short, and the client is about to leave the section with an error. */
  predicate CutAt(s: State, e: Event, s': State, t: nat) {
    CutOff(s, e, t) && t < |s'.clients| && s'.clients[t].pc == Up(false) && s'.clients[t].l == s.clients[t].l
  }

  lemma ForeverCut(k: Card, tr: nat -> State, ev: nat -> Event, t: nat, n: nat)
    requires k.Good() && PacedForever(k, tr, ev) && CutOff(tr(n), ev(n), t)
    ensures CutAt(tr(n), ev(n), tr(n + 1), t)
  {
    var ss, es := States(tr, n + 1), Events(ev, n + 1);
    assert ss[n] == tr(n) && ss[n + 1] == tr(n + 1) && es[n] == ev(n);
    assert Enabled(ss[n], es[n]) && ss[n + 1] == Next(k, ss[n], es[n]);
    CutLeaves(k, ss[n], es[n], t);
  }

  lemma ForeverHelpful(k: Card, tr: nat -> State, ev: nat -> Event, t: nat, n: nat)
    requires k.Good() && PacedForever(k, tr, ev) && WaitsAt(tr(n), t)
    ensures var e := Helpful(Look(tr(n), t), t); Enabled(tr(n), e) && Useful(e, t)
    ensures 0 < Rank(Look(tr(n), t)) <= 7
  {
    ForeverWakeOk(k, tr, ev, n);
    HelpfulUseful(k, tr(n), t);
  }

  /** While the rank stays, so does the event that would lower it. */
  lemma {:induction false} Stays(tr: nat -> State, ev: nat -> Event, t: nat, i: nat, j: nat)
    requires i <= j && (forall n :: i <= n <= j ==> WaitsAt(tr(n), t))
    requires forall n :: i <= n < j ==> Counted(tr(n), ev(n), tr(n + 1), t)
    ensures WaitsAt(tr(i), t) && WaitsAt(tr(j), t) && Steady(Look(tr(i), t), Look(tr(j), t), t)
    ensures Look(tr(j), t).j == Look(tr(i), t).j && Look(tr(j), t).c.l == Look(tr(i), t).c.l
    decreases j
  {
    assert WaitsAt(tr(i), t) && WaitsAt(tr(j), t);
    if i < j {
      Stays(tr, ev, t, i, j - 1);
      assert Counted(tr(j - 1), ev(j - 1), tr(j), t);
    }
  }

  /** The first state from `i` on in which the client no longer waits, if there is one up to `j`. */
  lemma {:induction false} FirstOut(tr: nat -> State, t: nat, i: nat, j: nat) returns (n: nat)
    requires i <= j && WaitsAt(tr(i), t)
    ensures i <= n <= j && (forall l :: i <= l < n ==> WaitsAt(tr(l), t))
    ensures WaitsAt(tr(n), t) ==> n == j
    decreases j - i
  {
    if i == j || !WaitsAt(tr(i + 1), t) {
      n := if i == j then i else i + 1;
    } else {
      n := FirstOut(tr, t, i + 1, j);
    }
  }

  /** Waiting throughout from `i` to just before `n`. */
  ghost predicate Throughout(tr: nat -> State, t: nat, i: nat, n: nat) { forall l :: i <= l < n ==> WaitsAt(tr(l), t) }

  /** The wait is over, with the operation done. */
  predicate OverAt(s: State, s': State, t: nat) {
    WaitsAt(s, t) && t < |s'.clients| && s'.clients[t].pc == AfterOp(Look(s, t).j) && s'.clients[t].l == s.clients[t].l
  }

  /** Still waiting at `n`, but nearer. */
  predicate NearerAt(s: State, s': State, t: nat) {
    && WaitsAt(s, t) && WaitsAt(s', t) && Rank(Look(s', t)) < Rank(Look(s, t))
    && Look(s', t).j == Look(s, t).j && s'.clients[t].l == s.clients[t].l
  }

  lemma AllCounted(k: Card, tr: nat -> State, ev: nat -> Event, t: nat, i: nat, n: nat)
    requires k.Good() && PacedForever(k, tr, ev) && Throughout(tr, t, i, n + 1)
    ensures forall l :: i <= l < n ==> Counted(tr(l), ev(l), tr(l + 1), t)
  {
    forall l | i <= l < n
      ensures Counted(tr(l), ev(l), tr(l + 1), t)
    {
      assert WaitsAt(tr(l), t) && WaitsAt(tr(l + 1), t);
      ForeverNotCut(k, tr, ev, t, l);
      ForeverCounted(k, tr, ev, t, l);
    }
  }

  /** The first state without the wait is the one behind it. */
  lemma Out(k: Card, tr: nat -> State, ev: nat -> Event, t: nat, i: nat, n: nat)
    requires k.Good() && PacedForever(k, tr, ev) && i < n && Throughout(tr, t, i, n) && !WaitsAt(tr(n), t)
    ensures OverAt(tr(i), tr(n), t) || CutAt(tr(n - 1), ev(n - 1), tr(n), t)
    ensures t < |tr(n).clients| && tr(n).clients[t].l == tr(i).clients[t].l
  {
    AllCounted(k, tr, ev, t, i, n - 1);
    Stays(tr, ev, t, i, n - 1);
    if CutOff(tr(n - 1), ev(n - 1), t) {
      ForeverCut(k, tr, ev, t, n - 1);
    } else {
      ForeverCounted(k, tr, ev, t, n - 1);
    }
  }

  /** When the helpful event of state `i` is served at `j`, the client is nearer by then. */
  lemma ServedNearer(tr: nat -> State, ev: nat -> Event, t: nat, i: nat, j: nat)
    requires i <= j && Throughout(tr, t, i, j + 2)
    requires forall l :: i <= l < j + 1 ==> Counted(tr(l), ev(l), tr(l + 1), t)
    requires WaitsAt(tr(i), t) && Matches(ev(j), Helpful(Look(tr(i), t), t))
    ensures NearerAt(tr(i), tr(j), t) || NearerAt(tr(i), tr(j + 1), t)
  {
    assert WaitsAt(tr(j), t) && WaitsAt(tr(j + 1), t);
    Stays(tr, ev, t, i, j);
    assert Counted(tr(j), ev(j), tr(j + 1), t);
  }

  lemma ServedBy(k: Card, tr: nat -> State, ev: nat -> Event, t: nat, i: nat, j: nat) returns (n: nat)
    requires k.Good() && PacedForever(k, tr, ev) && i <= j && Throughout(tr, t, i, j + 2)
    requires WaitsAt(tr(i), t) && var e := Helpful(Look(tr(i), t), t); !Enabled(tr(j), e) || Matches(ev(j), e)
    ensures i < n <= j + 1 && NearerAt(tr(i), tr(n), t)
  {
    AllCounted(k, tr, ev, t, i, j + 1);
    assert WaitsAt(tr(j), t);
    Stays(tr, ev, t, i, j);
    ForeverHelpful(k, tr, ev, t, j);
    if NearerAt(tr(i), tr(j), t) {
      n := j;
    } else {
      ServedNearer(tr, ev, t, i, j);
      n := j + 1;
    }
  }

  lemma FirstServed(k: Card, tr: nat -> State, ev: nat -> Event, t: nat, i: nat) returns (j: nat)
    requires k.Good() && PacedForever(k, tr, ev) && FairTo(tr, ev, t) && WaitsAt(tr(i), t)
    ensures i <= j && var e := Helpful(Look(tr(i), t), t); !Enabled(tr(j), e) || Matches(ev(j), e)
  {
    var e := Helpful(Look(tr(i), t), t);
    ForeverHelpful(k, tr, ev, t, i);
    assert Fair(tr, ev, e) && Served(tr, ev, e, i);
    j :| i <= j && (!Enabled(tr(j), e) || Matches(ev(j), e));
  }

  /** Under fairness a waiting client gets nearer, or past its wait. */
  lemma Progresses(k: Card, tr: nat -> State, ev: nat -> Event, t: nat, i: nat) returns (n: nat)
    requires k.Good() && PacedForever(k, tr, ev) && FairTo(tr, ev, t) && WaitsAt(tr(i), t)
    ensures i < n && Throughout(tr, t, i, n)
    ensures OverAt(tr(i), tr(n), t) || CutAt(tr(n - 1), ev(n - 1), tr(n), t) || NearerAt(tr(i), tr(n), t)
    ensures t < |tr(n).clients| && tr(n).clients[t].l == tr(i).clients[t].l
  {
    var j := FirstServed(k, tr, ev, t, i);
    n := FirstOut(tr, t, i, j + 1);
    if !WaitsAt(tr(n), t) {
      Out(k, tr, ev, t, i, n);
    } else {
      n := ServedBy(k, tr, ev, t, i, j);
    }
  }

  /**
   * Every wait ends: in every infinite paced run that is weakly fair to the card, the handler
   * and the client, a waiting or polling writer gets past its wait, with the operation done or,
   * if a signal cuts the wait short, on its way out with an error.
   */
  lemma {:induction false} FairWaitEnds(k: Card, tr: nat -> State, ev: nat -> Event, t: nat, i: nat)
    returns (n: nat)
    requires k.Good() && PacedForever(k, tr, ev) && FairTo(tr, ev, t) && WaitsAt(tr(i), t)
    ensures i < n && Throughout(tr, t, i, n)
    ensures OverAt(tr(i), tr(n), t) || CutAt(tr(n - 1), ev(n - 1), tr(n), t)
    ensures t < |tr(n).clients| && tr(n).clients[t].l == tr(i).clients[t].l
    decreases Rank(Look(tr(i), t))
  {
    n := Progresses(k, tr, ev, t, i);
    if !OverAt(tr(i), tr(n), t) && !CutAt(tr(n - 1), ev(n - 1), tr(n), t) {
      n := FairWaitEnds(k, tr, ev, t, n);
    }
  }
}
