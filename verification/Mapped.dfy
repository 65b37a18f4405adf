/**
 * Mapped callers: the driver ignores the pointer and works on the window, so every write of a
 * long call transforms the same bytes again.
 */
module Mapped {
  import opened Types
  import opened Machine
  import opened Semaphore
  import opened Buffers
  import opened Frames
  import opened Isolation
  import opened Handover
  import opened EndToEnd
  import opened Windows

  // ----- where a mapped call stands -----

  predicate Transformed(d: Device) { d.mmio.None? || d.mmio.value.done }

  /** Bytes of the call whose pass over the window is still to come. */
  function Left(v: View): nat {
    var l := v.c.l;
    match v.c.pc
    case Lib(_) => l.rem
    case Pre(_) => l.len + l.rem
    case Mmio(pc) => if pc.MPoll? && Transformed(v.g.dev) then l.rem else l.len + l.rem
    case Wait(_) => if Transformed(v.g.dev) then l.rem else l.len + l.rem
    case _ => l.rem
  }

  /** Finishing the call leaves `goal` in the window. */
  predicate Aims(k: Card, key: nat, isE: bool, goal: seq<Byte>, v: View) {
    && v.j.keyab == key && v.c.l.enc == isE && v.c.l.mapped
    && match v.c.pc
       case Idle => v.c.l.ret == 0 ==> v.g.dev.window == goal
       case Up(false) => true
       case Free(false) => true
       case _ =>
         && Passes(k, isE, key, v.g.dev.window, Left(v)) == goal
         && (v.c.pc.Lib? || (v.c.l.len <= CHUNK && (v.c.l.rem > 0 ==> v.c.l.len == CHUNK)))
  }

  lemma LibraryAims(k: Card, key: nat, isE: bool, goal: seq<Byte>, v: View, pc: LibPC, ch: Choice)
    requires Aims(k, key, isE, goal, v) && v.c.pc == Lib(pc)
    ensures Aims(k, key, isE, goal, LibraryStep(v, pc, ch))
  {}

  lemma EntryAims(k: Card, key: nat, isE: bool, goal: seq<Byte>, v: View, pc: PrePC, ch: Choice)
    requires LocalOk(v) && Aims(k, key, isE, goal, v) && v.c.pc == Pre(pc)
    ensures Aims(k, key, isE, goal, EntryStep(k, v, pc, ch))
  {}

  lemma MmioAims(k: Card, key: nat, isE: bool, goal: seq<Byte>, v: View, pc: MmioPC, ch: Choice)
    requires LocalOk(v) && SecOk(k, v, false) && Aims(k, key, isE, goal, v) && v.c.pc == Mmio(pc)
    ensures Aims(k, key, isE, goal, MmioStep(v, pc, ch))
  {}

  lemma WaitAims(k: Card, key: nat, isE: bool, goal: seq<Byte>, v: View, pc: WaitPC, ch: Choice)
    requires LocalOk(v) && SecOk(k, v, false) && Aims(k, key, isE, goal, v) && v.c.pc == Wait(pc)
    ensures Aims(k, key, isE, goal, WaitStep(v, pc, ch))
  {}

  lemma FreeAims(k: Card, key: nat, isE: bool, goal: seq<Byte>, v: View, ok: bool)
    requires k.Good() && LocalOk(v) && Aims(k, key, isE, goal, v) && v.c.pc == Free(ok)
    ensures Aims(k, key, isE, goal, LocalStep(k, v, Ok))
  {
    EmptyPass(k, isE, key, v.g.dev.window);
  }

  lemma OwnAims(k: Card, key: nat, isE: bool, goal: seq<Byte>, v: View, ch: Choice)
    requires k.Good() && LocalOk(v) && SecOk(k, v, false) && Aims(k, key, isE, goal, v) && !v.c.pc.Idle?
    ensures Aims(k, key, isE, goal, LocalStep(k, v, ch))
  {
    match v.c.pc
    case Lib(pc) => LibraryAims(k, key, isE, goal, v, pc, ch);
    case Pre(pc) => EntryAims(k, key, isE, goal, v, pc, ch);
    case Mmio(pc) => MmioAims(k, key, isE, goal, v, pc, ch);
    case Wait(pc) => WaitAims(k, key, isE, goal, v, pc, ch);
    case Up(_) =>
    case Free(ok) => FreeAims(k, key, isE, goal, v, ok);
  }

  // ----- what the others may do -----

  /** The client's message would be other bytes than those in the window. */
  predicate BringsOther(v: View) {
    v.c.pc == Mmio(MData) && Take(Kernel(v.g, v.j), v.j.len) != Take(v.g.dev.window, v.j.len)
  }

  /** Client `t` waits for the operation on the window. */
  predicate WaitsThere(s: State, t: nat)
    requires WellFormed(s)
  {
    t < |s.clients| && Waits(Look(s, t)) && Look(s, t).j.isM
  }

  /**
   * What a mapped caller cannot bear: a store of another byte anywhere in the window, somebody
   * else's message brought there, or an operation on it that the caller does not wait for.
   */
  predicate Spoils(s: State, e: Event, t: nat)
    requires WellFormed(s)
  {
    match e
    case Hardware(Poke(at, value)) => at < |s.g.dev.window| && s.g.dev.window[at] != value
    case Hardware(Transform(dma)) => !dma && Pending(s.g.dev.mmio) && !WaitsThere(s, t)
    case Thread(u, _) => u != t && u < |s.clients| && BringsOther(Look(s, u))
    case _ => false
  }

  /** No other client holds the card for memory-mapped I/O, and nobody stores into the window. */
  ghost predicate NoOtherUser(s: State, e: Event, t: nat)
    requires WellFormed(s)
  {
    && (forall u :: 0 <= u < |s.clients| && u != t && Inside(s, u) ==> !Look(s, u).j.isM)
    && (e.Hardware? ==> !e.e.Poke?)
  }

  /** In a calm run a caller without other users of the window bears everything. */
  lemma CalmIsAlone(k: Card, tr: seq<State>, ev: seq<Event>, i: nat, t: nat)
    requires k.Good() && CalmRun(k, tr, ev) && i < |ev|
    requires WellFormed(tr[i]) && NoOtherUser(tr[i], ev[i], t)
    ensures !Spoils(tr[i], ev[i], t)
  {
    CalmOn(k, tr, ev, i);
    if tr[i].g.dev.mmio.Some? { var o := BusyMeansHeld(k, tr[i]); }
    if ev[i].Thread? && ev[i].t < |tr[i].clients| { assert LocalOk(Look(tr[i], ev[i].t)); }
  }

  /** The window and the operation on it, as far as client `t` can tell. */
  predicate SameWindow(d: Device, d': Device) { d'.window == d.window && d'.mmio == d.mmio }

  lemma SameBrought(v: View, ch: Choice)
    requires LocalOk(v) && v.c.pc == Mmio(MData) && !BringsOther(v) && |v.g.dev.window| == WINDOW
    ensures SameWindow(v.g.dev, MmioStep(v, MData, ch).g.dev)
  {
    var m := Take(Kernel(v.g, v.j), v.j.len);
    assert Blit(v.g.dev.window, 0, m) == v.g.dev.window;
  }

  /** Other statements, a start included, leave the bytes of the window as they are. */
  lemma OtherMmio(v: View, pc: MmioPC, ch: Choice)
    requires LocalOk(v) && v.c.pc == Mmio(pc) && !BringsOther(v) && |v.g.dev.window| == WINDOW
    ensures MmioStep(v, pc, ch).g.dev.window == v.g.dev.window
  {
    if pc.MData? { SameBrought(v, ch); }
  }

  lemma OtherDma(v: View, pc: DmaPC, ch: Choice)
    requires v.c.pc == Dma(pc)
    ensures SameWindow(v.g.dev, DmaStep(v, pc, ch).g.dev)
  {}

  lemma OutsideWindow(k: Card, v: View, ch: Choice)
    requires !InSection(v.c.pc) || v.c.pc.Up?
    ensures SameWindow(v.g.dev, LocalStep(k, v, ch).g.dev)
  {
    LocalFramed(k, v, ch);
  }

  lemma OtherWindow(k: Card, v: View, ch: Choice)
    requires LocalOk(v) && !BringsOther(v) && |v.g.dev.window| == WINDOW
    ensures LocalStep(k, v, ch).g.dev.window == v.g.dev.window
    ensures !InSection(v.c.pc) ==> LocalStep(k, v, ch).g.dev.mmio == v.g.dev.mmio
  {
    if !InSection(v.c.pc) || v.c.pc.Up? {
      OutsideWindow(k, v, ch);
    } else {
      match v.c.pc
      case Mmio(pc) => OtherMmio(v, pc, ch);
      case Dma(pc) => OtherDma(v, pc, ch);
      case Wait(pc) => assert WaitStep(v, pc, ch).g == v.g;
    }
  }

  function Passed(k: Card, key: nat, isE: bool, d: Device, n: nat): Device
    requires d.mmio.Some?
  {
    d.(window := Pass(k, isE, key, d.window, n), mmio := Some(d.mmio.value.(done := true)))
  }

  /** The card's own pass over the window. */
  lemma WindowPass(k: Card, key: nat, isE: bool, goal: seq<Byte>, v: View)
    requires LocalOk(v) && SecOk(k, v, false) && Aims(k, key, isE, goal, v) && CardEnabled(v.g.dev, Transform(false))
    requires v.g.dev.mmio.Some? ==> v.j.isM && Waits(v)
    ensures TransformStep(k, v.g, false) == v.g.(dev := Passed(k, key, isE, v.g.dev, v.c.l.len))
    ensures v.j.isM && Waits(v) && !v.g.dev.mmio.value.done
  {
    assert MmioBusy(k, v, false);
  }

  lemma PassOn(k: Card, key: nat, isE: bool, goal: seq<Byte>, w: seq<Byte>, n: nat, rem: nat)
    requires k.Good() && n <= CHUNK && (rem > 0 ==> n == CHUNK) && Passes(k, isE, key, w, n + rem) == goal
    ensures Passes(k, isE, key, Pass(k, isE, key, w, n), rem) == goal
  {
    OnePass(k, isE, key, w, n, rem);
  }

  /** The pass that has been made is no longer to come. */
  lemma LeftAfter(k: Card, key: nat, isE: bool, v: View)
    requires v.g.dev.mmio.Some? && !v.g.dev.mmio.value.done && (v.c.pc.Wait? || v.c.pc == Mmio(MPoll))
    ensures Left(v) == v.c.l.len + v.c.l.rem
    ensures Left(v.(g := v.g.(dev := Passed(k, key, isE, v.g.dev, v.c.l.len)))) == v.c.l.rem
  {}

  lemma PassedAims(k: Card, key: nat, isE: bool, goal: seq<Byte>, v: View)
    requires k.Good() && Aims(k, key, isE, goal, v) && v.g.dev.mmio.Some? && !v.g.dev.mmio.value.done
    requires v.c.pc.Wait? || v.c.pc == Mmio(MPoll)
    ensures Aims(k, key, isE, goal, v.(g := v.g.(dev := Passed(k, key, isE, v.g.dev, v.c.l.len))))
  {
    LeftAfter(k, key, isE, v);
    PassOn(k, key, isE, goal, v.g.dev.window, v.c.l.len, v.c.l.rem);
  }

  lemma TransformAims(k: Card, key: nat, isE: bool, goal: seq<Byte>, v: View)
    requires k.Good() && LocalOk(v) && SecOk(k, v, false) && Aims(k, key, isE, goal, v)
    requires CardEnabled(v.g.dev, Transform(false))
    requires v.g.dev.mmio.Some? ==> v.j.isM && Waits(v)
    ensures Aims(k, key, isE, goal, v.(g := TransformStep(k, v.g, false)))
  {
    WindowPass(k, key, isE, goal, v);
    PassedAims(k, key, isE, goal, v);
  }

  /** The window, and while the client waits whether its operation has been carried out, are all that matters. */
  predicate SameMessage(v: View, v': View) {
    && v'.g.dev.window == v.g.dev.window
    && (Waits(v) ==> Transformed(v'.g.dev) == Transformed(v.g.dev))
  }

  lemma SameAims(k: Card, key: nat, isE: bool, goal: seq<Byte>, v: View, v': View)
    requires Aims(k, key, isE, goal, v) && SamePlace(v, v') && SameMessage(v, v')
    ensures Aims(k, key, isE, goal, v')
  {}

  lemma MemoryElse(k: Card, v: View)
    requires v.g.dev.dma.Some?
    ensures SameMessage(v, v.(g := TransformStep(k, v.g, true)))
  {}

  lemma FinishElse(v: View, dma: bool)
    requires CardEnabled(v.g.dev, Finish(dma))
    ensures SameMessage(v, v.(g := v.g.(dev := FinishStep(v.g.dev, dma))))
  {}

  /** An operation on the window that replaces nothing. */
  lemma NothingElse(k: Card, v: View)
    requires k.Good() && v.g.dev.mmio.Some? && v.g.dev.mmio.value.len == 0 && !Waits(v)
    ensures SameMessage(v, v.(g := TransformStep(k, v.g, false)))
  {
    NothingReplaced(k, v.g.dev.window, v.g.dev.mmio.value);
  }

  lemma CardElse(k: Card, v: View, e: CardEvent)
    requires k.Good() && CardEnabled(v.g.dev, e)
    requires e.Poke? ==> v.g.dev.window[e.at] == e.value
    requires e == Transform(false) ==> v.g.dev.mmio.value.len == 0 && !Waits(v)
    ensures SameMessage(v, v.(g := CardStep(k, v.g, e)))
  {
    match e
    case Poke(_, _) =>
    case Transform(dma) => if dma { MemoryElse(k, v); } else { NothingElse(k, v); }
    case Finish(dma) => FinishElse(v, dma);
    case Raise => assert RaiseStep(v.g.dev).mmio == v.g.dev.mmio;
  }

  /** The card's pass, or an event that leaves the window as it is. */
  lemma CardAims(k: Card, key: nat, isE: bool, goal: seq<Byte>, v: View, e: CardEvent)
    requires k.Good() && LocalOk(v) && SecOk(k, v, false) && Aims(k, key, isE, goal, v)
    requires CardEnabled(v.g.dev, e) && (e.Poke? ==> v.g.dev.window[e.at] == e.value)
    requires e == Transform(false) && Pending(v.g.dev.mmio) ==> v.j.isM && Waits(v)
    ensures Aims(k, key, isE, goal, v.(g := CardStep(k, v.g, e)))
  {
    if e == Transform(false) && Waits(v) {
      TransformAims(k, key, isE, goal, v);
    } else {
      CardElse(k, v, e);
      SameAims(k, key, isE, goal, v, v.(g := CardStep(k, v.g, e)));
    }
  }

  lemma OthersWindow(k: Card, s: State, e: Event, t: nat)
    requires IsoOk(k, s, NOBODY) && Enabled(s, e) && !Spoils(s, e, t) && !Concerns(e, t) && !e.Hardware?
    ensures Next(k, s, e).g.dev.window == s.g.dev.window
    ensures t < |s.clients| && Inside(s, t) ==> Next(k, s, e).g.dev.mmio == s.g.dev.mmio
  {
    match e
    case Thread(u, ch) =>
      assert LocalOk(Look(s, u));
      assert InSection(Look(s, u).c.pc) ==> Inside(s, u);
      OtherWindow(k, Look(s, u), ch);
    case User(_, _) =>
    case Irq(_) =>
  }

  lemma AimsStep(k: Card, s: State, e: Event, t: nat, key: nat, isE: bool, goal: seq<Byte>)
    requires IsoOk(k, s, NOBODY) && Enabled(s, e) && !Spoils(s, e, t) && t < |s.clients| && !s.clients[t].pc.Idle?
    requires Aims(k, key, isE, goal, Look(s, t))
    ensures var s' := Next(k, s, e);
      WellFormed(s') && t < |s'.clients| && Aims(k, key, isE, goal, Look(s', t))
  {
    SameHandles(k, s, e);
    assert LocalOk(Look(s, t)) && SecOk(k, Look(s, t), false);
    if Concerns(e, t) {
      OwnAims(k, key, isE, goal, Look(s, t), e.ch);
    } else if e.Hardware? {
      CardAims(k, key, isE, goal, Look(s, t), e.e);
    } else {
      OthersPlace(k, s, e, t);
      OthersWindow(k, s, e, t);
      assert Waits(Look(s, t)) ==> Inside(s, t);
      SameAims(k, key, isE, goal, Look(s, t), Look(Next(k, s, e), t));
    }
  }

  // ----- theorems over runs -----

  /** Nothing spoils the window for client `t`. */
  ghost predicate UnspoiltRun(tr: seq<State>, ev: seq<Event>, t: nat, i: nat, j: nat)
    requires |tr| == |ev| + 1 && j <= |ev|
  {
    forall m :: i <= m < j ==> WellFormed(tr[m]) && !Spoils(tr[m], ev[m], t)
  }

  lemma MappedStarted(k: Card, tr: seq<State>, ev: seq<Event>, t: nat, isE: bool, length: nat, i: nat)
    requires k.Good() && FromStart(k, tr, ev) && i < |ev| && ev[i] == User(t, Call(isE, true, length))
    ensures WellFormed(tr[i]) && WellFormed(tr[i + 1]) && t < |tr[i].clients| && t < |tr[i + 1].clients|
    ensures var key := Look(tr[i], t).j.keyab;
      Aims(k, key, isE, Passes(k, isE, key, tr[i].g.dev.window, length), Look(tr[i + 1], t))
  {
    StepFacts(k, tr, ev, i);
  }

  lemma AimsOn(k: Card, tr: seq<State>, ev: seq<Event>, t: nat, key: nat, isE: bool, goal: seq<Byte>, m: nat)
    requires k.Good() && FromStart(k, tr, ev) && m < |ev| && WellFormed(tr[m]) && !Spoils(tr[m], ev[m], t)
    requires t < |tr[m].clients| && !tr[m].clients[t].pc.Idle? && Aims(k, key, isE, goal, Look(tr[m], t))
    ensures WellFormed(tr[m + 1]) && t < |tr[m + 1].clients| && Aims(k, key, isE, goal, Look(tr[m + 1], t))
  {
    IsoRun(k, tr, ev, m);
    AimsStep(k, tr[m], ev[m], t, key, isE, goal);
  }

  lemma {:induction false} MappedAims(k: Card, tr: seq<State>, ev: seq<Event>, t: nat,
                                       isE: bool, length: nat, i: nat, j: nat)
    requires k.Good() && FromStart(k, tr, ev)
    requires Calling(tr, ev, t, isE, true, length, i, j) && UnspoiltRun(tr, ev, t, i, j)
    ensures WellFormed(tr[i]) && WellFormed(tr[j]) && t < |tr[i].clients| && t < |tr[j].clients|
    ensures var key := Look(tr[i], t).j.keyab;
      Aims(k, key, isE, Passes(k, isE, key, tr[i].g.dev.window, length), Look(tr[j], t))
    decreases j
  {
    if j == i + 1 {
      MappedStarted(k, tr, ev, t, isE, length, i);
    } else {
      MappedAims(k, tr, ev, t, isE, length, i, j - 1);
      assert !Spoils(tr[j - 1], ev[j - 1], t);
      var key := Look(tr[i], t).j.keyab;
      AimsOn(k, tr, ev, t, key, isE, Passes(k, isE, key, tr[i].g.dev.window, length), j - 1);
    }
  }

  /** A mapped call that returns 0 has passed over the window once per write. */
  lemma MappedEffect(k: Card, tr: seq<State>, ev: seq<Event>, t: nat, isE: bool, length: nat, i: nat, j: nat)
    requires k.Good() && FromStart(k, tr, ev)
    requires Calling(tr, ev, t, isE, true, length, i, j) && UnspoiltRun(tr, ev, t, i, j)
    requires t < |tr[j].clients| && tr[j].clients[t].pc.Idle? && tr[j].clients[t].l.ret == 0
    ensures WellFormed(tr[i]) && t < |tr[i].clients|
    ensures tr[j].g.dev.window == Passes(k, isE, Look(tr[i], t).j.keyab, tr[i].g.dev.window, length)
  {
    MappedAims(k, tr, ev, t, isE, length, i, j);
  }

  lemma WindowStep(k: Card, s: State, e: Event, t: nat)
    requires IsoOk(k, s, NOBODY) && Enabled(s, e) && !Spoils(s, e, t) && t < |s.clients| && s.clients[t].pc.Idle?
    requires Concerns(e, t) ==> e.User? && e.u.SetConfig?
    ensures Next(k, s, e).g.dev.window == s.g.dev.window
  {
    if e.Hardware? {
      CardElse(k, Look(s, t), e.e);
    } else if !Concerns(e, t) {
      OthersWindow(k, s, e, t);
    }
  }

  lemma WindowOn(k: Card, tr: seq<State>, ev: seq<Event>, t: nat, m: nat)
    requires k.Good() && FromStart(k, tr, ev) && m < |ev| && WellFormed(tr[m]) && !Spoils(tr[m], ev[m], t)
    requires t < |tr[m].clients| && tr[m].clients[t].pc.Idle?
    requires Concerns(ev[m], t) ==> ev[m].User? && ev[m].u.SetConfig?
    ensures tr[m + 1].g.dev.window == tr[m].g.dev.window
  {
    IsoRun(k, tr, ev, m);
    WindowStep(k, tr[m], ev[m], t);
  }

  /** Between its calls a lone user of the window finds it as it left it. */
  lemma {:induction false} WindowKept(k: Card, tr: seq<State>, ev: seq<Event>, t: nat, j: nat, p: nat)
    requires k.Good() && FromStart(k, tr, ev) && j <= p <= |ev|
    requires OnlyConfigures(ev, t, j, p) && UnspoiltRun(tr, ev, t, j, p)
    requires t < |tr[j].clients| && tr[j].clients[t].pc.Idle?
    ensures tr[p].g.dev.window == tr[j].g.dev.window
    decreases p
  {
    if j < p {
      WindowKept(k, tr, ev, t, j, p - 1);
      IdleKeeps(k, tr, ev, t, j, p - 1);
      assert !Spoils(tr[p - 1], ev[p - 1], t);
      WindowOn(k, tr, ev, t, p - 1);
    }
  }

  lemma MappedWindow(k: Card, tr: seq<State>, ev: seq<Event>, i: nat)
    requires k.Good() && FromStart(k, tr, ev) && i <= |ev|
    ensures |tr[i].g.dev.window| == WINDOW
  {
    IsoRun(k, tr, ev, i);
  }

  /** Encrypting and then decrypting the window, without other users of it: both calls' passes, one after the other. */
  lemma MappedThereAndBack(k: Card, tr: seq<State>, ev: seq<Event>, t: nat, length: nat, i: nat, j: nat, p: nat, q: nat)
    requires k.Good() && FromStart(k, tr, ev) && q <= |ev| && UnspoiltRun(tr, ev, t, i, q) && i < q
    requires Calling(tr, ev, t, true, true, length, i, j) && Calling(tr, ev, t, false, true, length, p, q)
    requires t < |tr[j].clients| && tr[j].clients[t].pc.Idle? && tr[j].clients[t].l.ret == 0
    requires j <= p && OnlyConfigures(ev, t, j, p)
    requires t < |tr[q].clients| && tr[q].clients[t].pc.Idle? && tr[q].clients[t].l.ret == 0
    ensures WellFormed(tr[i]) && t < |tr[i].clients| && |tr[i].g.dev.window| == WINDOW
    ensures var key := Look(tr[i], t).j.keyab;
      tr[q].g.dev.window == Passes(k, false, key, Passes(k, true, key, tr[i].g.dev.window, length), length)
  {
    MappedAims(k, tr, ev, t, true, length, i, j);
    WindowKept(k, tr, ev, t, j, p);
    IdleKeeps(k, tr, ev, t, j, p);
    MappedAims(k, tr, ev, t, false, length, p, q);
    MappedWindow(k, tr, ev, i);
  }

  /**
   * The mapped round trip over whole runs: with a byte-by-byte cipher and no other user of the
   * window, a successful encrypt and decrypt restore the whole window, however long the call.
   */
  lemma MappedRoundTrip(k: Card, f: Byte -> Byte, g: Byte -> Byte, tr: seq<State>, ev: seq<Event>,
                        t: nat, length: nat, i: nat, j: nat, p: nat, q: nat)
    requires FromStart(k, tr, ev) && q <= |ev| && UnspoiltRun(tr, ev, t, i, q) && i < q
    requires t < |tr[i].clients|
    requires BytesBy(k, true, Look(tr[i], t).j.keyab, f) && BytesBy(k, false, Look(tr[i], t).j.keyab, g)
    requires Calling(tr, ev, t, true, true, length, i, j) && Calling(tr, ev, t, false, true, length, p, q)
    requires t < |tr[j].clients| && tr[j].clients[t].pc.Idle? && tr[j].clients[t].l.ret == 0
    requires j <= p && OnlyConfigures(ev, t, j, p)
    requires t < |tr[q].clients| && tr[q].clients[t].pc.Idle? && tr[q].clients[t].l.ret == 0
    ensures tr[q].g.dev.window == tr[i].g.dev.window
  {
    MappedThereAndBack(k, tr, ev, t, length, i, j, p, q);
    ByteWiseUndone(k, Look(tr[i], t).j.keyab, f, g, tr[i].g.dev.window, length);
  }

  /** The same for every good cipher, if the call is one write or whole chunks only. */
  lemma MappedRoundTripWhole(k: Card, tr: seq<State>, ev: seq<Event>, t: nat, length: nat,
                             i: nat, j: nat, p: nat, q: nat)
    requires k.Good() && FromStart(k, tr, ev) && q <= |ev| && UnspoiltRun(tr, ev, t, i, q) && i < q
    requires length <= CHUNK || length % CHUNK == 0
    requires Calling(tr, ev, t, true, true, length, i, j) && Calling(tr, ev, t, false, true, length, p, q)
    requires t < |tr[j].clients| && tr[j].clients[t].pc.Idle? && tr[j].clients[t].l.ret == 0
    requires j <= p && OnlyConfigures(ev, t, j, p)
    requires t < |tr[q].clients| && tr[q].clients[t].pc.Idle? && tr[q].clients[t].l.ret == 0
    ensures tr[q].g.dev.window == tr[i].g.dev.window
  {
    MappedThereAndBack(k, tr, ev, t, length, i, j, p, q);
    WholeChunksUndone(k, Look(tr[i], t).j.keyab, tr[i].g.dev.window, length);
  }
}
