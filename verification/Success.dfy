/**
 * When a library call succeeds: exactly if none of its own statements fails. So in a schedule
 * that is fair to it, a call in which nothing fails returns 0.
 */
module Success {
  import opened Types
  import opened Machine
  import opened Buffers
  import opened Isolation
  import opened Fairness
  import opened Liveness
  import opened EndToEnd
  import opened Chunks
  import opened Mapped
  import opened Windows
  import Probe

  // ----- one statement -----

  /** The client's next statement, going this way, reports a failure. */
  predicate Failing(v: View, ch: Choice) {
    match v.c.pc
    case Lib(pc) => !pc.LoopTop? && ch.Fail?                                  // ioctl
    case Pre(Entry) => !v.j.isNotMM && !v.j.isM                               // DMA with a mapped pointer
    case Pre(ProbeRead) => v.g.dev.live & 0x0fffffff != 0                     // is_not_live
    case Pre(Alloc) => v.j.isNotMM && (v.c.l.len == 0 || ch.Fail?)            // vmalloc
    case Pre(CopyIn) => ch.Fail?                                              // copy_from_user
    case Pre(Down) => ch.Signal?                                              // down_interruptible
    case Dma(DMap) => ch.Fail?                                                // dma_map_single
    case Dma(DUser) => ch.Fail?                                               // copy_to_user
    case Mmio(MUser) => ch.Fail?
    case Wait(Check) => ch.Signal? && Bit(if v.j.isM then v.g.dev.status else v.g.dev.cmd, 1)
    case _ => false
  }

  /** Nothing has failed so far; a call that has returned has returned 0. */
  predicate Fine(v: View) {
    match v.c.pc
    case Idle => v.c.l.ret == 0
    case Up(ok) => ok
    case Free(ok) => ok
    case _ => true
  }

  /** Something has. */
  predicate Failed(v: View) {
    match v.c.pc
    case Idle => v.c.l.ret == -1
    case Up(ok) => !ok
    case Free(ok) => !ok
    case _ => false
  }

  predicate Decides(v: View, ch: Choice, v': View) { if Failing(v, ch) then Failed(v') else Fine(v') }

  lemma LibraryDecides(v: View, pc: LibPC, ch: Choice)
    requires v.c.pc == Lib(pc)
    ensures Decides(v, ch, LibraryStep(v, pc, ch))
  {}

  lemma EntryDecides(k: Card, v: View, pc: PrePC, ch: Choice)
    requires v.c.pc == Pre(pc)
    ensures Decides(v, ch, EntryStep(k, v, pc, ch))
  {}

  lemma MmioDecides(v: View, pc: MmioPC, ch: Choice)
    requires LocalOk(v) && v.c.pc == Mmio(pc)
    ensures Decides(v, ch, MmioStep(v, pc, ch))
  {}

  lemma DmaDecides(v: View, pc: DmaPC, ch: Choice)
    requires LocalOk(v) && v.c.pc == Dma(pc)
    ensures Decides(v, ch, DmaStep(v, pc, ch))
  {}

  lemma WaitDecides(v: View, pc: WaitPC, ch: Choice)
    requires v.c.pc == Wait(pc)
    ensures Decides(v, ch, WaitStep(v, pc, ch))
  {}

  lemma LocalDecides(k: Card, v: View, ch: Choice)
    requires LocalOk(v) && !v.c.pc.Idle? && Fine(v)
    ensures Decides(v, ch, LocalStep(k, v, ch))
  {
    match v.c.pc
    case Lib(pc) => LibraryDecides(v, pc, ch);
    case Pre(pc) => EntryDecides(k, v, pc, ch);
    case Mmio(pc) => MmioDecides(v, pc, ch);
    case Dma(pc) => DmaDecides(v, pc, ch);
    case Wait(pc) => WaitDecides(v, pc, ch);
    case Up(_) =>
    case Free(_) =>
  }

  /** A failure is reported to the caller. */
  lemma FailureStays(k: Card, v: View, ch: Choice)
    requires LocalOk(v) && !v.c.pc.Idle? && Failed(v)
    ensures Failed(LocalStep(k, v, ch)) && !Failing(v, ch)
  {}

  // ----- a whole call -----

  predicate FailsAt(s: State, e: Event, t: nat) {
    e.Thread? && e.t == t && WellFormed(s) && t < |s.clients| && Failing(Look(s, t), e.ch)
  }

  /** Some statement of client `t` has failed from event `i` on, before event `j`. */
  ghost predicate SomeFails(tr: seq<State>, ev: seq<Event>, t: nat, i: nat, j: nat)
    requires |tr| == |ev| + 1 && j <= |ev|
  {
    exists m :: i <= m < j && FailsAt(tr[m], ev[m], t)
  }

  /** The call is where its statements have brought it. */
  ghost predicate Told(s: State, t: nat, failed: bool) {
    WellFormed(s) && t < |s.clients| && if failed then Failed(Look(s, t)) else Fine(Look(s, t))
  }

  lemma ToldStep(k: Card, s: State, e: Event, t: nat, failed: bool)
    requires IsoOk(k, s, NOBODY) && Enabled(s, e) && Told(s, t, failed) && !s.clients[t].pc.Idle?
    ensures Told(Next(k, s, e), t, failed || FailsAt(s, e, t))
  {
    SameHandles(k, s, e);
    if Concerns(e, t) {
      assert LocalOk(Look(s, t));
      if failed {
        FailureStays(k, Look(s, t), e.ch);
      } else {
        LocalDecides(k, Look(s, t), e.ch);
      }
      assert Look(Next(k, s, e), t) == LocalStep(k, Look(s, t), e.ch);
    } else {
      OthersPlace(k, s, e, t);
    }
  }

  lemma ToldStart(k: Card, s: State, t: nat, isE: bool, mapped: bool, length: nat)
    requires Enabled(s, User(t, Call(isE, mapped, length)))
    ensures Told(Next(k, s, User(t, Call(isE, mapped, length))), t, false)
  {}

  lemma SomeFailsMore(tr: seq<State>, ev: seq<Event>, t: nat, i: nat, j: nat)
    requires |tr| == |ev| + 1 && i <= j < |ev|
    ensures SomeFails(tr, ev, t, i, j + 1) <==> SomeFails(tr, ev, t, i, j) || FailsAt(tr[j], ev[j], t)
  {}

  lemma ToldNext(k: Card, tr: seq<State>, ev: seq<Event>, t: nat, n: nat, failed: bool)
    requires k.Good() && FromStart(k, tr, ev) && n < |ev| && Told(tr[n], t, failed) && !tr[n].clients[t].pc.Idle?
    ensures Told(tr[n + 1], t, failed || FailsAt(tr[n], ev[n], t))
  {
    IsoRun(k, tr, ev, n);
    StepFacts(k, tr, ev, n);
    ToldStep(k, tr[n], ev[n], t, failed);
  }

  lemma ToldFirst(k: Card, tr: seq<State>, ev: seq<Event>, t: nat, isE: bool, mapped: bool, length: nat, i: nat)
    requires k.Good() && FromStart(k, tr, ev) && i < |ev| && ev[i] == User(t, Call(isE, mapped, length))
    ensures Told(tr[i + 1], t, false)
  {
    StepFacts(k, tr, ev, i);
    ToldStart(k, tr[i], t, isE, mapped, length);
  }

  /** What has been told stays told, and what fails is told. */
  ghost predicate TellsOn(s: State, e: Event, s': State, t: nat) {
    && (Told(s, t, true) ==> Told(s', t, true))
    && (Told(s, t, false) ==> Told(s', t, FailsAt(s, e, t)))
  }

  lemma {:induction false} ToldChain(tr: seq<State>, ev: seq<Event>, t: nat, i: nat, j: nat)
    requires |tr| == |ev| + 1 && i <= j <= |ev| && Told(tr[i], t, false)
    requires forall m :: i <= m < j ==> TellsOn(tr[m], ev[m], tr[m + 1], t)
    ensures Told(tr[j], t, SomeFails(tr, ev, t, i, j))
    decreases j
  {
    if i < j {
      ToldChain(tr, ev, t, i, j - 1);
      SomeFailsMore(tr, ev, t, i, j - 1);
      assert TellsOn(tr[j - 1], ev[j - 1], tr[j], t);
    }
  }

  lemma ToldOn(k: Card, tr: seq<State>, ev: seq<Event>, t: nat, isE: bool, mapped: bool, length: nat, i: nat, j: nat)
    requires k.Good() && FromStart(k, tr, ev) && Calling(tr, ev, t, isE, mapped, length, i, j)
    ensures Told(tr[j], t, SomeFails(tr, ev, t, i + 1, j))
  {
    ToldFirst(k, tr, ev, t, isE, mapped, length, i);
    forall m | i + 1 <= m < j
      ensures TellsOn(tr[m], ev[m], tr[m + 1], t)
    {
      if Told(tr[m], t, true) { ToldNext(k, tr, ev, t, m, true); }
      if Told(tr[m], t, false) { ToldNext(k, tr, ev, t, m, false); }
    }
    ToldChain(tr, ev, t, i + 1, j);
  }

  /** In every run a library call returns 0 exactly if none of its own statements has failed, and ERROR otherwise. */
  lemma SucceedsExactly(k: Card, tr: seq<State>, ev: seq<Event>, t: nat, isE: bool, mapped: bool,
                        length: nat, i: nat, j: nat)
    requires k.Good() && FromStart(k, tr, ev) && Calling(tr, ev, t, isE, mapped, length, i, j)
    requires t < |tr[j].clients| && tr[j].clients[t].pc.Idle?
    ensures tr[j].clients[t].l.ret == if SomeFails(tr, ev, t, i + 1, j) then -1 else 0
  {
    ToldOn(k, tr, ev, t, isE, mapped, length, i, j);
  }

  // ----- nothing fails -----

  /** The environment lets the client's statement go well. */
  predicate Lucky(s: State, e: Event, t: nat) {
    e.Thread? && e.t == t && t < |s.clients| ==>
      !e.ch.Fail? && (e.ch.Signal? ==> s.clients[t].pc != Pre(Down) && s.clients[t].pc != Wait(Check))
  }

  /** A call for some bytes has some bytes in each of its writes. */
  predicate NonEmpty(v: View) {
    match v.c.pc
    case Idle => true
    case Lib(_) => v.c.l.rem > 0
    case _ => v.c.l.len > 0
  }

  lemma EntryNonEmpty(k: Card, v: View, pc: PrePC, ch: Choice)
    requires v.c.pc == Pre(pc) && NonEmpty(v)
    ensures NonEmpty(EntryStep(k, v, pc, ch))
  {}

  lemma MmioNonEmpty(v: View, pc: MmioPC, ch: Choice)
    requires v.c.pc == Mmio(pc) && NonEmpty(v)
    ensures NonEmpty(MmioStep(v, pc, ch))
  {}

  lemma DmaNonEmpty(v: View, pc: DmaPC, ch: Choice)
    requires v.c.pc == Dma(pc) && NonEmpty(v)
    ensures NonEmpty(DmaStep(v, pc, ch))
  {}

  lemma LibraryNonEmpty(v: View, pc: LibPC, ch: Choice)
    requires v.c.pc == Lib(pc) && NonEmpty(v)
    ensures NonEmpty(LibraryStep(v, pc, ch))
  {}

  lemma WaitNonEmpty(v: View, pc: WaitPC, ch: Choice)
    requires v.c.pc == Wait(pc) && NonEmpty(v)
    ensures NonEmpty(WaitStep(v, pc, ch))
  {}

  lemma LocalNonEmpty(k: Card, v: View, ch: Choice)
    requires NonEmpty(v)
    ensures NonEmpty(LocalStep(k, v, ch))
  {
    match v.c.pc
    case Idle =>
    case Lib(pc) => LibraryNonEmpty(v, pc, ch);
    case Pre(pc) => EntryNonEmpty(k, v, pc, ch);
    case Mmio(pc) => MmioNonEmpty(v, pc, ch);
    case Dma(pc) => DmaNonEmpty(v, pc, ch);
    case Wait(pc) => WaitNonEmpty(v, pc, ch);
    case Up(_) =>
    case Free(_) =>
  }

  lemma EntryMapped(k: Card, v: View, pc: PrePC, ch: Choice)
    ensures EntryStep(k, v, pc, ch).c.l.mapped == v.c.l.mapped
  {}

  lemma MmioMapped(v: View, pc: MmioPC, ch: Choice)
    ensures MmioStep(v, pc, ch).c.l.mapped == v.c.l.mapped
  {}

  lemma DmaMapped(v: View, pc: DmaPC, ch: Choice)
    ensures DmaStep(v, pc, ch).c.l.mapped == v.c.l.mapped
  {}

  /** Whether the caller is mapped does not change in the course of a call. */
  lemma LocalMapped(k: Card, v: View, ch: Choice)
    ensures LocalStep(k, v, ch).c.l.mapped == v.c.l.mapped
  {
    match v.c.pc
    case Idle =>
    case Lib(pc) => assert LibraryStep(v, pc, ch).c.l.mapped == v.c.l.mapped;
    case Pre(pc) => EntryMapped(k, v, pc, ch);
    case Mmio(pc) => MmioMapped(v, pc, ch);
    case Dma(pc) => DmaMapped(v, pc, ch);
    case Wait(pc) => assert WaitStep(v, pc, ch).c.l == v.c.l;
    case Up(_) =>
    case Free(_) =>
  }

  /** A mapped caller, or one with bytes to write. */
  ghost predicate Askable(s: State, t: nat, mapped: bool) {
    && WellFormed(s) && t < |s.clients| && s.clients[t].l.mapped == mapped
    && (!mapped ==> NonEmpty(Look(s, t)))
  }

  lemma AskableNext(k: Card, tr: seq<State>, ev: seq<Event>, t: nat, mapped: bool, n: nat)
    requires k.Good() && FromStart(k, tr, ev) && n < |ev| && Askable(tr[n], t, mapped) && !tr[n].clients[t].pc.Idle?
    ensures Askable(tr[n + 1], t, mapped)
  {
    StepFacts(k, tr, ev, n);
    var s, e := tr[n], ev[n];
    SameHandles(k, s, e);
    if Concerns(e, t) {
      LocalMapped(k, Look(s, t), e.ch);
      if !mapped { LocalNonEmpty(k, Look(s, t), e.ch); }
      assert Look(Next(k, s, e), t) == LocalStep(k, Look(s, t), e.ch);
    } else {
      OthersPlace(k, s, e, t);
    }
  }

  lemma {:induction false} AskableOn(k: Card, tr: seq<State>, ev: seq<Event>, t: nat, isE: bool, mapped: bool,
                                     length: nat, i: nat, j: nat)
    requires k.Good() && FromStart(k, tr, ev) && Calling(tr, ev, t, isE, mapped, length, i, j)
    requires mapped || length > 0
    ensures Askable(tr[j], t, mapped)
    decreases j
  {
    if j == i + 1 {
      StepFacts(k, tr, ev, i);
    } else {
      AskableOn(k, tr, ev, t, isE, mapped, length, i, j - 1);
      AskableNext(k, tr, ev, t, mapped, j - 1);
    }
  }

  /** With a live card and a configuration that is allowed, only the environment makes a statement fail. */
  lemma OnlyLuck(k: Card, s: State, e: Event, t: nat, mapped: bool)
    requires k.alive && IsoOk(k, s, NOBODY) && Probe.ProbeOk(k, s) && Askable(s, t, mapped) && Lucky(s, e, t)
    requires mapped ==> Look(s, t).j.isM
    ensures !FailsAt(s, e, t)
  {
    assert LocalOk(Look(s, t));
    Probe.Complement(k);
  }

  lemma NoneFails(k: Card, tr: seq<State>, ev: seq<Event>, t: nat, isE: bool, mapped: bool,
                  length: nat, i: nat, j: nat, m: nat)
    requires k.Good() && k.alive && FromStart(k, tr, ev) && Calling(tr, ev, t, isE, mapped, length, i, j) && i < m < j
    requires WellFormed(tr[i]) && t < |tr[i].clients| && if mapped then Look(tr[i], t).j.isM else length > 0
    requires Lucky(tr[m], ev[m], t)
    ensures !FailsAt(tr[m], ev[m], t)
  {
    AskableOn(k, tr, ev, t, isE, mapped, length, i, m);
    IsoRun(k, tr, ev, m);
    Probe.ProbeRun(k, tr, ev, m);
    ModeKept(k, tr, ev, t, isE, mapped, length, i, j, m);
    OnlyLuck(k, tr[m], ev[m], t, mapped);
  }

  /**
   * A call in which nothing fails returns 0: the card is alive, an unmapped caller has bytes to
   * write and a mapped one is not configured for DMA, the environment fails none of the call's
   * statements, and no signal comes while it waits.
   */
  lemma NothingFails(k: Card, tr: seq<State>, ev: seq<Event>, t: nat, isE: bool, mapped: bool,
                     length: nat, i: nat, j: nat)
    requires k.Good() && k.alive && FromStart(k, tr, ev) && Calling(tr, ev, t, isE, mapped, length, i, j)
    requires WellFormed(tr[i]) && t < |tr[i].clients| && if mapped then Look(tr[i], t).j.isM else length > 0
    requires forall m :: i < m < j ==> Lucky(tr[m], ev[m], t)
    requires t < |tr[j].clients| && tr[j].clients[t].pc.Idle?
    ensures tr[j].clients[t].l.ret == 0
  {
    SucceedsExactly(k, tr, ev, t, isE, mapped, length, i, j);
    forall m | i < m < j
      ensures !FailsAt(tr[m], ev[m], t)
    {
      NoneFails(k, tr, ev, t, isE, mapped, length, i, j, m);
    }
  }

  // ----- total correctness -----

  /** The first state after `i` in which the client is between calls. */
  lemma FirstIdle(tr: nat -> State, t: nat, i: nat, n: nat) returns (j: nat)
    requires i < n && t < |tr(n).clients| && tr(n).clients[t].pc.Idle?
    ensures i < j <= n && t < |tr(j).clients| && tr(j).clients[t].pc.Idle?
    ensures forall m :: i < m < j ==> !(t < |tr(m).clients| && tr(m).clients[t].pc.Idle?)
  {
    j := i + 1;
    while !(t < |tr(j).clients| && tr(j).clients[t].pc.Idle?)
      invariant i < j <= n
      invariant forall m :: i < m < j ==> !(t < |tr(m).clients| && tr(m).clients[t].pc.Idle?)
      decreases n - j
    {
      j := j + 1;
    }
  }

  /** Clients neither come nor go. */
  lemma {:induction false} ThereAlready(k: Card, tr: nat -> State, ev: nat -> Event, t: nat, i: nat, m: nat)
    requires k.Good() && PacedForever(k, tr, ev) && i <= m && ev(i).User? && ev(i).t == t
    ensures t < |tr(m).clients|
    decreases m
  {
    if i == m {
      StateAt(k, tr, ev, i);
    } else {
      ThereAlready(k, tr, ev, t, i, m - 1);
      StateAt(k, tr, ev, m - 1);
      SameHandles(k, tr(m - 1), ev(m - 1));
    }
  }

  /** The finite part of an infinite run in which a call returns. */
  lemma CallWithin(k: Card, tr: nat -> State, ev: nat -> Event, t: nat, isE: bool, mapped: bool, length: nat,
                   i: nat, j: nat)
    requires k.Good() && PacedForever(k, tr, ev) && i < j && ev(i) == User(t, Call(isE, mapped, length))
    requires forall m :: i < m < j ==> !(t < |tr(m).clients| && tr(m).clients[t].pc.Idle?)
    ensures FromStart(k, States(tr, j), Events(ev, j))
    ensures Calling(States(tr, j), Events(ev, j), t, isE, mapped, length, i, j)
  {
    assert Events(ev, j)[i] == ev(i);
    forall m | i < m < j
      ensures States(tr, j)[m] == tr(m) && t < |tr(m).clients|
    {
      ThereAlready(k, tr, ev, t, i, m);
    }
  }

  /** From the call on the environment lets all the client's statements go well, and nothing disturbs it. */
  ghost predicate LuckyFrom(tr: nat -> State, ev: nat -> Event, t: nat, i: nat) {
    forall m: nat :: i < m ==> Lucky(tr(m), ev(m), t)
  }

  /**
   * Total correctness: in a fair schedule a call in which nothing fails comes to its end, and
   * returns 0. If nothing disturbs it either, the caller then has the cipher of its own bytes, and
   * a mapped caller whose window nothing spoils has the passes there.
   */
  lemma CallSucceeds(k: Card, tr: nat -> State, ev: nat -> Event, t: nat, isE: bool, mapped: bool, length: nat, i: nat)
    returns (j: nat)
    requires k.Good() && k.alive && PacedForever(k, tr, ev) && FairToAll(tr, ev) && FairSemaphore(tr, ev, t)
    requires ev(i) == User(t, Call(isE, mapped, length)) && LuckyFrom(tr, ev, t, i)
    requires WellFormed(tr(i)) && t < |tr(i).clients| && if mapped then Look(tr(i), t).j.isM else length > 0
    ensures i < j && t < |tr(j).clients| && tr(j).clients[t].pc.Idle? && tr(j).clients[t].l.ret == 0
    ensures !mapped && QuietRun(States(tr, j), Events(ev, j), t, i, j) ==>
      length <= |tr(i).clients[t].user|
      && tr(j).clients[t].user == Processed(k, isE, Look(tr(i), t).j.keyab, tr(i).clients[t].user, length)
    ensures mapped && UnspoiltRun(States(tr, j), Events(ev, j), t, i, j) ==>
      tr(j).g.dev.window == Passes(k, isE, Look(tr(i), t).j.keyab, tr(i).g.dev.window, length)
  {
    ThereAlready(k, tr, ev, t, i, i + 1);
    var n := CallReturns(k, tr, ev, t, i + 1);
    j := FirstIdle(tr, t, i, n);
    CallWithin(k, tr, ev, t, isE, mapped, length, i, j);
    var ss, es := States(tr, j), Events(ev, j);
    assert ss[i] == tr(i) && ss[j] == tr(j);
    forall m | i < m < j
      ensures Lucky(ss[m], es[m], t)
    {
      assert ss[m] == tr(m) && es[m] == ev(m);
    }
    NothingFails(k, ss, es, t, isE, mapped, length, i, j);
    if !mapped && QuietRun(ss, es, t, i, j) { CallEffect(k, ss, es, t, isE, length, i, j); }
    if mapped && UnspoiltRun(ss, es, t, i, j) { MappedEffect(k, ss, es, t, isE, length, i, j); }
  }
}
