/**
 * Kernel buffers and the job record. One call in flight per handle is all this needs:
 * signals, stores into the window and any interleaving are allowed.
 */
module Buffers {
  import opened Types
  import opened Machine

  /** One client per handle: the calls on a handle follow one another. */
  ghost predicate Distinct(s: State) {
    forall t, u :: 0 <= t < |s.clients| && 0 <= u < |s.clients| && t != u ==> s.clients[t].h != s.clients[u].h
  }

  /** Every run from the start, one client to a handle. */
  ghost predicate FromStart(k: Card, tr: seq<State>, ev: seq<Event>) {
    Run(k, tr, ev) && Initial(tr[0]) && Distinct(tr[0])
  }

  /** The write's arguments, and the handle configured as the library left it. */
  predicate Args(v: View) {
    && v.c.l.len <= CHUNK
    && v.j.isE == v.c.l.enc
    && v.j.isNotMM == !v.c.l.mapped
    && (!v.c.l.mapped ==> v.c.l.off + v.c.l.len + v.c.l.rem <= |v.c.user|)
  }

  /** After allocation: an unmapped caller owns a kernel buffer of the write's length. */
  predicate HasBuffer(v: View) {
    && v.j.len == v.c.l.len
    && (v.j.isNotMM || v.j.isM)
    && if v.j.isNotMM
       then v.j.msg.Some? && v.j.msg.value in v.g.heap && |v.g.heap[v.j.msg.value]| == v.j.len > 0
       else v.j.msg.None?
  }

  predicate LibOk(v: View, pc: LibPC) {
    && v.j.msg.None?
    && (!v.c.l.mapped ==> v.c.l.off + v.c.l.rem <= |v.c.user|)
    && (pc != IoEncrypt ==> v.j.isE == v.c.l.enc)
    && (pc == LoopTop ==> v.j.isNotMM == !v.c.l.mapped)
  }

  predicate PreOk(v: View, pc: PrePC) {
    && Args(v)
    && (!pc.Entry? ==> v.j.isNotMM || v.j.isM)
    && (pc.CopyIn? ==> v.j.isNotMM)
    && (if pc.CopyIn? || pc.Down? then HasBuffer(v) else v.j.msg.None?)
  }

  predicate HeldOk(v: View) {
    && Args(v) && HasBuffer(v) && v.c.err != 0
    && match v.c.pc
       case Mmio(pc) => (pc.LoadKey? || v.j.isM) && (pc.MData? || pc.MOut? || pc.MUser? ==> v.j.isNotMM)
       case Dma(pc) => !v.j.isM && (!pc.DMap? ==> v.j.msg == Some(v.c.dma))
       case Wait(_) => v.j.isI && (!v.j.isM ==> v.j.msg == Some(v.c.dma))
       case _ => true
  }

  predicate LocalOk(v: View) {
    match v.c.pc
    case Idle => v.j.msg.None?
    case Lib(pc) => LibOk(v, pc)
    case Pre(pc) => PreOk(v, pc)
    case _ => HeldOk(v)
  }

  predicate Owns(s: State, t: nat, b: int)
    requires WellFormed(s) && t < |s.clients|
  {
    Look(s, t).j.msg == Some(b)
  }

  /** Names handed out so far are live or freed, and none was freed twice. */
  ghost predicate Ledger(g: Shared) {
    && (forall b :: b in g.heap ==> 0 <= b < g.nextBuf)
    && (forall b :: multiset(g.freed)[b] == if 0 <= b < g.nextBuf && b !in g.heap then 1 else 0)
  }

  ghost predicate Owned(s: State)
    requires WellFormed(s)
  {
    forall b :: b in s.g.heap ==> exists t :: 0 <= t < |s.clients| && Owns(s, t, b)
  }

  ghost predicate OneOwner(s: State)
    requires WellFormed(s)
  {
    forall t, u, b :: 0 <= t < |s.clients| && 0 <= u < |s.clients| && Owns(s, t, b) && Owns(s, u, b) ==> t == u
  }

  ghost predicate BufOk(s: State) {
    && WellFormed(s) && Distinct(s)
    && 0 <= s.g.nextBuf && Ledger(s.g)
    && (forall t :: 0 <= t < |s.clients| ==> LocalOk(Look(s, t)))
    && Owned(s) && OneOwner(s)
  }

  /** What one client may do to the kernel heap: nothing, allocate, refill or free its own buffer. */
  ghost predicate HeapMove(v: View, v': View) {
    || (v'.j.msg == v.j.msg && v'.g.nextBuf == v.g.nextBuf && v'.g.freed == v.g.freed
        && v'.g.heap.Keys == v.g.heap.Keys
        && forall b :: b in v.g.heap && v.j.msg != Some(b) ==> v'.g.heap[b] == v.g.heap[b])
    || (v.j.msg.None? && v'.j.msg == Some(v.g.nextBuf) && v'.g.nextBuf == v.g.nextBuf + 1 && v'.g.freed == v.g.freed
        && v'.g.heap.Keys == v.g.heap.Keys + {v.g.nextBuf}
        && forall b :: b in v.g.heap && b != v.g.nextBuf ==> v'.g.heap[b] == v.g.heap[b])
    || (v.j.msg.Some? && v'.j.msg.None? && v'.g.nextBuf == v.g.nextBuf
        && v.j.msg.value in v.g.heap
        && v'.g.heap == v.g.heap - {v.j.msg.value} && v'.g.freed == v.g.freed + [v.j.msg.value])
  }

  lemma FreeBuf(k: Card, v: View, ch: Choice)
    requires LocalOk(v) && v.c.pc.Free?
    ensures LocalOk(LocalStep(k, v, ch)) && HeapMove(v, LocalStep(k, v, ch)) && LocalStep(k, v, ch).c.h == v.c.h
  {}

  lemma LibraryBuf(v: View, pc: LibPC, ch: Choice)
    requires LocalOk(v) && v.c.pc == Lib(pc)
    ensures LocalOk(LibraryStep(v, pc, ch)) && HeapMove(v, LibraryStep(v, pc, ch))
    ensures LibraryStep(v, pc, ch).c.h == v.c.h
  {}

  lemma AllocBuf(v: View, ch: Choice)
    requires LocalOk(v) && v.c.pc == Pre(Alloc)
    ensures var v' := AllocStep(v.(j := v.j.(len := v.c.l.len)), ch);
      LocalOk(v') && HeapMove(v, v') && v'.c.h == v.c.h
  {}

  lemma EntryBuf(k: Card, v: View, pc: PrePC, ch: Choice)
    requires LocalOk(v) && v.c.pc == Pre(pc)
    ensures LocalOk(EntryStep(k, v, pc, ch)) && HeapMove(v, EntryStep(k, v, pc, ch))
    ensures EntryStep(k, v, pc, ch).c.h == v.c.h
  {
    if pc.Alloc? { AllocBuf(v, ch); }
  }

  /** The steps that leave the heap and the record alone. */
  lemma RegisterBuf(v: View, pc: MmioPC, ch: Choice)
    requires LocalOk(v) && v.c.pc == Mmio(pc) && !pc.MOut?
    ensures LocalOk(MmioStep(v, pc, ch)) && HeapMove(v, MmioStep(v, pc, ch))
    ensures MmioStep(v, pc, ch).c.h == v.c.h
  {}

  lemma CopyBuf(v: View, data: seq<Byte>)
    requires LocalOk(v) && v.j.msg.Some?
    ensures LocalOk(PutKernel(v, data)) && HeapMove(v, PutKernel(v, data)) && PutKernel(v, data).c.h == v.c.h
  {}

  lemma MmioBuf(v: View, pc: MmioPC, ch: Choice)
    requires LocalOk(v) && v.c.pc == Mmio(pc)
    ensures LocalOk(MmioStep(v, pc, ch)) && HeapMove(v, MmioStep(v, pc, ch))
    ensures MmioStep(v, pc, ch).c.h == v.c.h
  {
    if pc.MOut? {
      CopyBuf(v, Take(v.g.dev.window, v.j.len));
    } else {
      RegisterBuf(v, pc, ch);
    }
  }

  lemma DmaBuf(v: View, pc: DmaPC, ch: Choice)
    requires LocalOk(v) && v.c.pc == Dma(pc)
    ensures LocalOk(DmaStep(v, pc, ch)) && HeapMove(v, DmaStep(v, pc, ch))
    ensures DmaStep(v, pc, ch).c.h == v.c.h
  {}

  lemma WaitBuf(v: View, pc: WaitPC, ch: Choice)
    requires LocalOk(v) && v.c.pc == Wait(pc)
    ensures LocalOk(WaitStep(v, pc, ch)) && HeapMove(v, WaitStep(v, pc, ch))
    ensures WaitStep(v, pc, ch).c.h == v.c.h
  {}

  lemma LocalBuf(k: Card, v: View, ch: Choice)
    requires LocalOk(v) && ThreadEnabled(v, ch)
    ensures LocalOk(LocalStep(k, v, ch)) && HeapMove(v, LocalStep(k, v, ch))
    ensures LocalStep(k, v, ch).c.h == v.c.h
  {
    match v.c.pc
    case Idle =>
    case Lib(pc) => LibraryBuf(v, pc, ch);
    case Pre(pc) => EntryBuf(k, v, pc, ch);
    case Mmio(pc) => MmioBuf(v, pc, ch);
    case Dma(pc) => DmaBuf(v, pc, ch);
    case Wait(pc) => WaitBuf(v, pc, ch);
    case Up(_) =>
    case Free(_) => FreeBuf(k, v, ch);
  }

  lemma UserBuf(v: View, u: UserEvent)
    requires LocalOk(v) && UserEnabled(v, u)
    ensures LocalOk(UserStep(v, u)) && HeapMove(v, UserStep(v, u)) && UserStep(v, u).c.h == v.c.h
  {}

  /** A client whose buffer is still there does not mind what else happened. */
  lemma LocalFrame(v: View, g: Shared)
    requires LocalOk(v)
    requires v.j.msg.Some? && v.j.msg.value in v.g.heap ==>
      v.j.msg.value in g.heap && |g.heap[v.j.msg.value]| == |v.g.heap[v.j.msg.value]|
    ensures LocalOk(v.(g := g))
  {}

  lemma LedgerMove(v: View, v': View)
    requires Ledger(v.g) && HeapMove(v, v') && 0 <= v.g.nextBuf
    ensures Ledger(v'.g) && 0 <= v'.g.nextBuf
  {
    forall b
      ensures multiset(v'.g.freed)[b] == if 0 <= b < v'.g.nextBuf && b !in v'.g.heap then 1 else 0
    {
      assert multiset(v.g.freed)[b] == if 0 <= b < v.g.nextBuf && b !in v.g.heap then 1 else 0;
    }
  }

  /** Everyone else still has their buffer. */
  lemma OthersLocal(s: State, t: nat, v: View, u: nat)
    requires BufOk(s) && t < |s.clients| && u < |s.clients| && u != t
    requires HeapMove(Look(s, t), v) && v.c.h == s.clients[t].h
    ensures WellFormed(Store(s, t, v)) && LocalOk(Look(Store(s, t, v), u))
  {
    var w := Look(s, u);
    assert LocalOk(w) && LocalOk(Look(s, t));
    if w.j.msg.Some? { assert Owns(s, u, w.j.msg.value) && !Owns(s, t, w.j.msg.value); }
    LocalFrame(w, v.g);
    assert Look(Store(s, t, v), u) == w.(g := v.g);
  }

  lemma AllLocal(s: State, t: nat, v: View)
    requires BufOk(s) && t < |s.clients|
    requires LocalOk(v) && HeapMove(Look(s, t), v) && v.c.h == s.clients[t].h
    ensures WellFormed(Store(s, t, v)) && Distinct(Store(s, t, v))
    ensures forall u :: 0 <= u < |s.clients| ==> LocalOk(Look(Store(s, t, v), u))
  {
    assert Look(Store(s, t, v), t) == v;
    forall u | 0 <= u < |s.clients| && u != t
      ensures LocalOk(Look(Store(s, t, v), u))
    {
      OthersLocal(s, t, v, u);
    }
  }

  lemma OwnerFound(s: State, t: nat, v: View, b: int)
    requires BufOk(s) && t < |s.clients|
    requires HeapMove(Look(s, t), v) && v.c.h == s.clients[t].h
    requires b in v.g.heap
    ensures exists u :: 0 <= u < |s.clients| && Owns(Store(s, t, v), u, b)
  {
    var s' := Store(s, t, v);
    assert Look(s', t) == v;
    if v.j.msg == Some(b) {
      assert Owns(s', t, b);
    } else {
      var u :| 0 <= u < |s.clients| && Owns(s, u, b);
      assert Owns(s', u, b);
    }
  }

  /** Every live buffer still has an owner. */
  lemma OwnedKept(s: State, t: nat, v: View)
    requires BufOk(s) && t < |s.clients|
    requires HeapMove(Look(s, t), v) && v.c.h == s.clients[t].h
    ensures WellFormed(Store(s, t, v)) && Owned(Store(s, t, v))
  {
    forall b | b in v.g.heap
      ensures exists u :: 0 <= u < |s.clients| && Owns(Store(s, t, v), u, b)
    {
      OwnerFound(s, t, v, b);
    }
  }

  /** And no two handles name the same one: a fresh name is in no handle yet. */
  lemma OneOwnerKept(s: State, t: nat, v: View)
    requires BufOk(s) && t < |s.clients|
    requires HeapMove(Look(s, t), v) && v.c.h == s.clients[t].h
    ensures WellFormed(Store(s, t, v)) && OneOwner(Store(s, t, v))
  {
    var s' := Store(s, t, v);
    assert Look(s', t) == v;
    forall u, b | 0 <= u < |s.clients| && u != t && Owns(s', u, b)
      ensures Owns(s, u, b) && !Owns(s', t, b)
    {
      assert Owns(s, u, b) && LocalOk(Look(s, u));
      assert b in s.g.heap && b < s.g.nextBuf;
      assert !Owns(s, t, b);
    }
  }

  lemma StoreBuf(s: State, t: nat, v: View)
    requires BufOk(s) && t < |s.clients|
    requires LocalOk(v) && HeapMove(Look(s, t), v) && v.c.h == s.clients[t].h
    ensures BufOk(Store(s, t, v))
  {
    LedgerMove(Look(s, t), v);
    AllLocal(s, t, v);
    OwnedKept(s, t, v);
    OneOwnerKept(s, t, v);
  }

  /** Ownership depends on the handles alone. */
  lemma SameOwners(s: State, s': State)
    requires WellFormed(s) && WellFormed(s') && |s'.clients| == |s.clients| && Owned(s) && OneOwner(s)
    requires s'.g.heap.Keys == s.g.heap.Keys && forall t :: 0 <= t < |s.clients| ==> Look(s', t).j == Look(s, t).j
    ensures Owned(s') && OneOwner(s')
  {
    assert forall t, b :: 0 <= t < |s.clients| ==> (Owns(s', t, b) <==> Owns(s, t, b));
  }

  /** The card replaces bytes, and nothing else of the heap. */
  lemma CardHeap(k: Card, g: Shared, e: CardEvent)
    requires k.Good() && CardEnabled(g.dev, e)
    ensures var g' := CardStep(k, g, e);
      && g'.heap.Keys == g.heap.Keys && g'.nextBuf == g.nextBuf && g'.freed == g.freed
      && forall b :: b in g.heap ==> |g'.heap[b]| == |g.heap[b]|
  {}

  lemma SameLedger(g: Shared, g': Shared)
    requires Ledger(g) && g'.heap.Keys == g.heap.Keys && g'.nextBuf == g.nextBuf && g'.freed == g.freed
    ensures Ledger(g')
  {
    forall b
      ensures multiset(g'.freed)[b] == if 0 <= b < g'.nextBuf && b !in g'.heap then 1 else 0
    {
      assert multiset(g.freed)[b] == if 0 <= b < g.nextBuf && b !in g.heap then 1 else 0;
    }
  }

  lemma CardBuf(k: Card, s: State, e: CardEvent)
    requires k.Good() && BufOk(s) && CardEnabled(s.g.dev, e)
    ensures BufOk(s.(g := CardStep(k, s.g, e)))
  {
    var g := CardStep(k, s.g, e);
    var s' := s.(g := g);
    CardHeap(k, s.g, e);
    SameLedger(s.g, g);
    forall t | 0 <= t < |s.clients|
      ensures LocalOk(Look(s', t)) && Look(s', t).j == Look(s, t).j
    {
      LocalFrame(Look(s, t), g);
    }
    SameOwners(s, s');
  }

  /** The handler touches the wake-up flags and the card's interrupt word only. */
  lemma IrqShape(s: State, i: IrqEvent)
    requires WellFormed(s) && IrqEnabled(s, i)
    ensures var s' := IrqStep(s, i);
      && WellFormed(s') && |s'.clients| == |s.clients| && s'.jobs == s.jobs
      && s'.g.heap == s.g.heap && s'.g.nextBuf == s.g.nextBuf && s'.g.freed == s.g.freed
      && forall t :: 0 <= t < |s.clients| ==>
        s'.clients[t] == s.clients[t] || s'.clients[t] == s.clients[t].(woken := true)
  {}

  /** Being woken makes no difference to the buffers. */
  lemma SameLocal(v: View, v': View)
    requires LocalOk(v) && v'.j == v.j && v'.g.heap == v.g.heap
    requires v'.c == v.c || v'.c == v.c.(woken := true)
    ensures LocalOk(v')
  {}

  lemma IrqBuf(s: State, i: IrqEvent)
    requires BufOk(s) && IrqEnabled(s, i)
    ensures BufOk(IrqStep(s, i))
  {
    var s' := IrqStep(s, i);
    IrqShape(s, i);
    forall t | 0 <= t < |s.clients|
      ensures LocalOk(Look(s', t)) && Look(s', t).j == Look(s, t).j && s'.clients[t].h == s.clients[t].h
    {
      assert LocalOk(Look(s, t));
      SameLocal(Look(s, t), Look(s', t));
    }
    SameOwners(s, s');
  }

  lemma BufStep(k: Card, s: State, e: Event)
    requires k.Good() && BufOk(s) && Enabled(s, e)
    ensures BufOk(Next(k, s, e))
  {
    match e
    case Thread(t, ch) =>
      LocalBuf(k, Look(s, t), ch);
      StoreBuf(s, t, LocalStep(k, Look(s, t), ch));
    case User(t, u) =>
      UserBuf(Look(s, t), u);
      StoreBuf(s, t, UserStep(Look(s, t), u));
    case Hardware(c) => CardBuf(k, s, c);
    case Irq(i) => IrqBuf(s, i);
  }

  lemma InitialBuf(s: State)
    requires Initial(s) && Distinct(s)
    ensures BufOk(s)
  {
    assert forall t :: 0 <= t < |s.clients| ==> Look(s, t).j == OPENED;
  }

  lemma {:induction false} BufRun(k: Card, tr: seq<State>, ev: seq<Event>, i: nat)
    requires k.Good() && Run(k, tr, ev) && Initial(tr[0]) && Distinct(tr[0]) && i <= |ev|
    ensures BufOk(tr[i])
  {
    if i == 0 {
      InitialBuf(tr[0]);
    } else {
      BufRun(k, tr, ev, i - 1);
      BufStep(k, tr[i - 1], ev[i - 1]);
    }
  }

  /**
   * Conservation over whole runs: once every call has returned, each buffer ever allocated
   * has been freed exactly once, nothing else has, and no handle still names a buffer.
   */
  lemma BuffersConserved(k: Card, tr: seq<State>, ev: seq<Event>, i: nat)
    requires k.Good() && Run(k, tr, ev) && Initial(tr[0]) && Distinct(tr[0]) && i <= |ev|
    requires forall t :: 0 <= t < |tr[i].clients| ==> tr[i].clients[t].pc.Idle?
    ensures tr[i].g.heap == map[]
    ensures forall b :: multiset(tr[i].g.freed)[b] == if 0 <= b < tr[i].g.nextBuf then 1 else 0
    ensures WellFormed(tr[i]) && forall t :: 0 <= t < |tr[i].clients| ==> Look(tr[i], t).j.msg == None
  {
    BufRun(k, tr, ev, i);
    var s := tr[i];
    assert forall t :: 0 <= t < |s.clients| ==> LocalOk(Look(s, t)) && Look(s, t).j.msg.None?;
    assert forall t, b :: 0 <= t < |s.clients| ==> !Owns(s, t, b);
    assert forall b :: b !in s.g.heap;
    assert s.g.heap.Keys == {};
  }

  /** In every reachable state a handle names a buffer only while a write is under way. */
  lemma BetweenWrites(k: Card, tr: seq<State>, ev: seq<Event>, i: nat, t: nat)
    requires k.Good() && Run(k, tr, ev) && Initial(tr[0]) && Distinct(tr[0]) && i <= |ev| && t < |tr[i].clients|
    requires tr[i].clients[t].pc.Idle? || tr[i].clients[t].pc.Lib?
    ensures WellFormed(tr[i]) && Look(tr[i], t).j.msg == None
  {
    BufRun(k, tr, ev, i);
    assert LocalOk(Look(tr[i], t));
  }
}
