/** Mutual exclusion: it holds in every run, whatever handles, signals or stores occur. */
module Semaphore {
  import opened Types
  import opened Machine
  import opened Paths

  predicate Inside(s: State, t: nat)
    requires t < |s.clients|
  {
    InSection(s.clients[t].pc)
  }

  /** The count is 0 or 1, is 1 exactly when the section is empty, and every down has its up. */
  ghost predicate SemOk(s: State) {
    && WellFormed(s)
    && 0 <= s.g.sem <= 1
    && (s.g.sem == 1 <==> forall t :: 0 <= t < |s.clients| ==> !Inside(s, t))
    && (forall t, u :: 0 <= t < |s.clients| && 0 <= u < |s.clients| && Inside(s, t) && Inside(s, u) ==> t == u)
    && (forall t :: 0 <= t < |s.clients| ==>
          s.clients[t].downs == s.clients[t].ups + (if Inside(s, t) then 1 else 0))
  }

  /** How one step of a client moves it with respect to the section. */
  predicate Moves(v: View, v': View) {
    && v'.c.h == v.c.h
    && var before, after := InSection(v.c.pc), InSection(v'.c.pc);
       && v'.g.sem == v.g.sem + (if before then 1 else 0) - (if after then 1 else 0)
       && v'.c.downs == v.c.downs + (if after && !before then 1 else 0)
       && v'.c.ups == v.c.ups + (if before && !after then 1 else 0)
       && (after && !before ==> v.g.sem > 0)
  }

  lemma LibraryMoves(v: View, pc: LibPC, ch: Choice)
    requires v.c.pc == Lib(pc)
    ensures Moves(v, LibraryStep(v, pc, ch))
  {}

  lemma EntryMoves(k: Card, v: View, pc: PrePC, ch: Choice)
    requires v.c.pc == Pre(pc) && (pc.Down? && !ch.Signal? ==> v.g.sem > 0)
    ensures Moves(v, EntryStep(k, v, pc, ch))
  {}

  lemma MmioMoves(v: View, pc: MmioPC, ch: Choice)
    requires v.c.pc == Mmio(pc)
    ensures Moves(v, MmioStep(v, pc, ch))
  {}

  lemma DmaMoves(v: View, pc: DmaPC, ch: Choice)
    requires v.c.pc == Dma(pc)
    ensures Moves(v, DmaStep(v, pc, ch))
  {}

  lemma WaitMoves(v: View, pc: WaitPC, ch: Choice)
    requires v.c.pc == Wait(pc)
    ensures Moves(v, WaitStep(v, pc, ch))
  {}

  lemma LocalMoves(k: Card, v: View, ch: Choice)
    requires v.c.pc == Pre(Down) && !ch.Signal? ==> v.g.sem > 0
    ensures Moves(v, LocalStep(k, v, ch))
  {
    match v.c.pc
    case Idle =>
    case Lib(pc) => LibraryMoves(v, pc, ch);
    case Pre(pc) => EntryMoves(k, v, pc, ch);
    case Mmio(pc) => MmioMoves(v, pc, ch);
    case Dma(pc) => DmaMoves(v, pc, ch);
    case Wait(pc) => WaitMoves(v, pc, ch);
    case Up(_) =>
    case Free(_) =>
  }

  lemma StoreKeepsSem(s: State, t: nat, v: View)
    requires SemOk(s) && t < |s.clients| && Moves(Look(s, t), v)
    ensures SemOk(Store(s, t, v))
  {
    var s' := Store(s, t, v);
    assert forall u :: 0 <= u < |s.clients| && u != t ==> s'.clients[u] == s.clients[u];
    if Inside(s, t) {
      assert s.g.sem == 0;
      assert forall u :: 0 <= u < |s.clients| && u != t ==> !Inside(s, u) && !Inside(s', u);
      assert Inside(s', t) == InSection(v.c.pc);
    } else if InSection(v.c.pc) {
      assert Inside(s', t);
      assert forall u :: 0 <= u < |s.clients| && u != t ==> !Inside(s, u) && !Inside(s', u);
    } else {
      assert forall u :: 0 <= u < |s.clients| ==> Inside(s', u) == Inside(s, u);
    }
  }

  lemma IrqKeepsSem(s: State, i: IrqEvent)
    requires SemOk(s) && IrqEnabled(s, i)
    ensures SemOk(IrqStep(s, i))
  {
    var s' := IrqStep(s, i);
    assert forall t :: 0 <= t < |s.clients| ==>
      s'.clients[t] == s.clients[t] || s'.clients[t] == s.clients[t].(woken := true);
    assert forall t :: 0 <= t < |s.clients| ==> Inside(s', t) == Inside(s, t);
  }

  lemma CardKeepsSem(k: Card, s: State, e: CardEvent)
    requires SemOk(s) && CardEnabled(s.g.dev, e)
    ensures SemOk(s.(g := CardStep(k, s.g, e)))
  {
    var s' := s.(g := CardStep(k, s.g, e));
    assert s'.g.sem == s.g.sem;
    assert forall t :: 0 <= t < |s.clients| ==> Inside(s', t) == Inside(s, t);
  }

  lemma SemStep(k: Card, s: State, e: Event)
    requires SemOk(s) && Enabled(s, e)
    ensures SemOk(Next(k, s, e))
  {
    match e
    case Thread(t, ch) =>
      LocalMoves(k, Look(s, t), ch);
      StoreKeepsSem(s, t, LocalStep(k, Look(s, t), ch));
    case User(t, u) => StoreKeepsSem(s, t, UserStep(Look(s, t), u));
    case Hardware(c) => CardKeepsSem(k, s, c);
    case Irq(i) => IrqKeepsSem(s, i);
  }

  lemma {:induction false} AlongKeepsSem(k: Card, s: State, es: seq<Event>, s': State, good: (State, Event) -> bool)
    requires SemOk(s) && Along(k, s, es, s', good)
    ensures SemOk(s')
    decreases |es|
  {
    if es != [] {
      SemStep(k, s, es[0]);
      AlongKeepsSem(k, Next(k, s, es[0]), es[1..], s', good);
    }
  }

  lemma ComesKeepsSem(k: Card, s: State, s': State, good: (State, Event) -> bool)
    requires SemOk(s) && Comes(k, s, s', good)
    ensures SemOk(s')
  {
    var es :| Along(k, s, es, s', good);
    AlongKeepsSem(k, s, es, s', good);
  }

  /** Safety over whole runs: at most one writer in the section, ever. */
  lemma {:induction false} MutualExclusion(k: Card, tr: seq<State>, ev: seq<Event>, i: nat)
    requires Run(k, tr, ev) && Initial(tr[0]) && i <= |ev|
    ensures SemOk(tr[i])
    decreases i
  {
    if i == 0 {
      assert forall t :: 0 <= t < |tr[0].clients| ==> !Inside(tr[0], t);
    } else {
      MutualExclusion(k, tr, ev, i - 1);
      SemStep(k, tr[i - 1], ev[i - 1]);
    }
  }
}
