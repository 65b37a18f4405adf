/**
 * The three things a writer cannot bear: being given memory on which a forgotten operation is
 * still to replace bytes, coming in while one is still to replace bytes of the window, and a
 * store of another byte into its message there. Each may be followed by a successful write of
 * wrong bytes, and nothing else may.
 */
module Hazards {
  import opened Types
  import opened Machine
  import opened Buffers
  import opened Isolation
  import opened EndToEnd
  import opened Paths
  import opened Ways

  // ----- if it is not disturbed, the write delivers what was asked -----

  /** In `pci_write` and not yet copied out. */
  predicate Before(pc: PC) { pc.Pre? || (InSection(pc) && !pc.Up?) }

  /** How the write stands that began with buffer `u` and has to put `want` at `off`. */
  ghost predicate Delivering(k: Card, v: View, u: seq<Byte>, off: nat, want: seq<Byte>) {
    match v.c.pc
    case Up(ok) => ok ==> v.c.user == Blit(u, off, want)
    case Free(ok) => ok ==> v.c.user == Blit(u, off, want)
    case Idle => v.c.l.ret == 0 ==> v.c.user == Blit(u, off, want)
    case Lib(_) => v.c.user == Blit(u, off, want)
    case _ => Before(v.c.pc) && v.c.user == u && v.c.l.off == off && Result(k, v) == want
  }

  /** The write goes on with the same settings and the same bytes, or is going to fail. */
  predicate Keeps(v: View, v': View) {
    && v'.c.user == v.c.user
    && match v'.c.pc
       case Idle => v'.c.l.ret == -1
       case Lib(_) => false
       case Up(ok) => !ok
       case Free(ok) => !ok
       case _ => v'.c.l == v.c.l && v'.j == v.j.(len := v'.j.len, msg := v'.j.msg)
  }

  lemma AllocKeeps(v: View, ch: Choice)
    requires v.c.pc == Pre(Alloc) && v.j.isNotMM
    ensures Keeps(v, AllocStep(v.(j := v.j.(len := v.c.l.len)), ch))
  {}

  lemma EntryKeeps(k: Card, v: View, pc: PrePC, ch: Choice)
    requires LocalOk(v) && v.c.pc == Pre(pc) && v.j.isNotMM
    ensures Keeps(v, EntryStep(k, v, pc, ch))
  {
    if pc.Alloc? { AllocKeeps(v, ch); }
  }

  lemma MmioKeeps(v: View, pc: MmioPC, ch: Choice)
    requires LocalOk(v) && v.c.pc == Mmio(pc) && !CopiesOut(v) && v.j.isNotMM
    ensures Keeps(v, MmioStep(v, pc, ch))
  {}

  lemma DmaKeeps(v: View, pc: DmaPC, ch: Choice)
    requires LocalOk(v) && v.c.pc == Dma(pc) && !CopiesOut(v)
    ensures Keeps(v, DmaStep(v, pc, ch))
  {}

  lemma WaitKeeps(v: View, pc: WaitPC, ch: Choice)
    requires LocalOk(v) && v.c.pc == Wait(pc) && v.j.isNotMM
    ensures Keeps(v, WaitStep(v, pc, ch))
  {}

  /** The statements before the copy-out leave what was asked as it is. */
  lemma LocalKeeps(k: Card, v: View, ch: Choice)
    requires LocalOk(v) && Before(v.c.pc) && !CopiesOut(v) && v.j.isNotMM
    ensures Keeps(v, LocalStep(k, v, ch))
  {
    match v.c.pc
    case Pre(pc) => EntryKeeps(k, v, pc, ch);
    case Mmio(pc) => MmioKeeps(v, pc, ch);
    case Dma(pc) => DmaKeeps(v, pc, ch);
    case Wait(pc) => WaitKeeps(v, pc, ch);
  }

  /** The copy-out delivers what was asked, or reports that it did not. */
  lemma CopyDelivers(k: Card, v: View, ch: Choice, u: seq<Byte>, off: nat, want: seq<Byte>)
    requires LocalOk(v) && SecOk(k, v, true) && Delivering(k, v, u, off, want) && CopiesOut(v)
    ensures Delivering(k, LocalStep(k, v, ch), u, off, want)
  {
    CopyOutHolds(k, v);
    assert LocalStep(k, v, ch) == v.(c := CopyOut(v.c, Result(k, v), ch));
  }

  lemma EndDelivers(k: Card, v: View, ch: Choice, u: seq<Byte>, off: nat, want: seq<Byte>)
    requires LocalOk(v) && Delivering(k, v, u, off, want) && (v.c.pc.Up? || v.c.pc.Free?)
    ensures Delivering(k, LocalStep(k, v, ch), u, off, want)
  {}

  lemma SameDelivers(k: Card, v: View, v': View, u: seq<Byte>, off: nat, want: seq<Byte>)
    requires Delivering(k, v, u, off, want) && Before(v.c.pc) && Keeps(v, v')
    ensures Delivering(k, v', u, off, want)
  {}

  lemma OwnDelivers(k: Card, v: View, ch: Choice, u: seq<Byte>, off: nat, want: seq<Byte>)
    requires LocalOk(v) && SecOk(k, v, true) && v.j.isNotMM && Delivering(k, v, u, off, want)
    requires Before(v.c.pc) || v.c.pc.Up? || v.c.pc.Free?
    ensures Delivering(k, LocalStep(k, v, ch), u, off, want)
  {
    if v.c.pc.Up? || v.c.pc.Free? {
      EndDelivers(k, v, ch, u, off, want);
    } else if CopiesOut(v) {
      CopyDelivers(k, v, ch, u, off, want);
    } else {
      LocalKeeps(k, v, ch);
      SameDelivers(k, v, LocalStep(k, v, ch), u, off, want);
    }
  }

  lemma OthersDeliver(k: Card, v: View, v': View, u: seq<Byte>, off: nat, want: seq<Byte>)
    requires SamePlace(v, v') && Delivering(k, v, u, off, want)
    ensures Delivering(k, v', u, off, want)
  {}

  /** The invariant of an unmapped write, on the way to its return. */
  ghost predicate Ongoing(k: Card, s: State, t: nat, u: seq<Byte>, off: nat, want: seq<Byte>) {
    && IsoOk(k, s, t) && t < |s.clients| && Delivering(k, Look(s, t), u, off, want)
    && (Writing(s, t) ==> Look(s, t).j.isNotMM)
  }

  lemma KeepsMapping(k: Card, v: View, ch: Choice)
    requires !v.c.pc.Lib?
    ensures LocalStep(k, v, ch).j.isNotMM == v.j.isNotMM
  {
    match v.c.pc
    case Idle =>
    case Pre(pc) => assert EntryStep(k, v, pc, ch).j.isNotMM == v.j.isNotMM;
    case Mmio(pc) => assert MmioStep(v, pc, ch).j == v.j;
    case Dma(pc) => assert DmaStep(v, pc, ch).j == v.j;
    case Wait(pc) => assert WaitStep(v, pc, ch).j == v.j;
    case Up(_) =>
    case Free(_) =>
  }

  lemma OngoingStep(k: Card, s: State, e: Event, t: nat, u: seq<Byte>, off: nat, want: seq<Byte>)
    requires Ongoing(k, s, t, u, off, want) && Enabled(s, e) && Bearable(t)(s, e)
    ensures Ongoing(k, Next(k, s, e), t, u, off, want)
  {
    IsoStep(k, s, t, e);
    SameHandles(k, s, e);
    if Concerns(e, t) {
      var v := Look(s, t);
      assert LocalOk(v) && SecOk(k, v, true) && e.Thread?;
      OwnDelivers(k, v, e.ch, u, off, want);
      KeepsMapping(k, v, e.ch);
      assert Look(Next(k, s, e), t) == LocalStep(k, v, e.ch);
    } else {
      OthersPlace(k, s, e, t);
      OthersDeliver(k, Look(s, t), Look(Next(k, s, e), t), u, off, want);
    }
  }

  lemma {:induction false} OngoingOn(k: Card, s: State, es: seq<Event>, s': State, t: nat,
                                     u: seq<Byte>, off: nat, want: seq<Byte>)
    requires Ongoing(k, s, t, u, off, want) && Along(k, s, es, s', Bearable(t))
    ensures Ongoing(k, s', t, u, off, want)
    decreases |es|
  {
    if es != [] {
      OngoingStep(k, s, es[0], t, u, off, want);
      OngoingOn(k, Next(k, s, es[0]), es[1..], s', t, u, off, want);
    }
  }

  /** With any good card: after an event that does not disturb the caller no way to return 0 delivers anything else. */
  lemma Borne(k: Card, s: State, e: Event, t: nat, s': State)
    requires IsoOk(k, s, t) && Enabled(s, e) && t < |s.clients| && Before(s.clients[t].pc) && Look(s, t).j.isNotMM
    requires Undisturbed(s, e, t) && GoesOn(k, Next(k, s, e), s', t) && Back(s', t)
    ensures s'.clients[t].user == Blit(s.clients[t].user, s.clients[t].l.off, Result(k, Look(s, t)))
  {
    var u, off, want := s.clients[t].user, s.clients[t].l.off, Result(k, Look(s, t));
    OngoingStep(k, s, e, t, u, off, want);
    var es :| Along(k, Next(k, s, e), es, s', Bearable(t));
    OngoingOn(k, Next(k, s, e), es, s', t, u, off, want);
  }

  // ----- and each of the three can spoil it -----

  function Raised(s: seq<Byte>): (r: seq<Byte>)
    ensures |r| == |s| && forall i :: 0 <= i < |s| ==> r[i] == s[i] + 1
  {
    seq(|s|, i requires 0 <= i < |s| => s[i] + 1)
  }

  function Lowered(s: seq<Byte>): (r: seq<Byte>)
    ensures |r| == |s| && forall i :: 0 <= i < |s| ==> r[i] == s[i] - 1
  {
    seq(|s|, i requires 0 <= i < |s| => s[i] - 1)
  }

  /** A good card that adds one to every byte, whatever the key. */
  const SHIFTING := Card((_, s) => Raised(s), (_, s) => Lowered(s), true)

  lemma ShiftingIsGood()
    ensures SHIFTING.Good()
  {
    forall s: seq<Byte>
      ensures Lowered(Raised(s)) == s
    {
    }
  }

  /** It changes every byte, and keeps different bytes different. */
  lemma Shifts(isE: bool, key: nat, a: seq<Byte>, b: seq<Byte>, i: nat)
    requires i < |a| == |b|
    ensures SHIFTING.Cipher(isE, key, a)[i] != a[i]
    ensures a[i] != b[i] ==> SHIFTING.Cipher(isE, key, a)[i] != SHIFTING.Cipher(isE, key, b)[i]
    ensures |SHIFTING.Cipher(isE, key, a)| == |SHIFTING.Cipher(isE, key, b)| == |a|
  {}

  lemma BlitDiffers(u: seq<Byte>, off: nat, a: seq<Byte>, b: seq<Byte>)
    requires off + |a| <= |u| && |a| == |b| && a != b
    ensures Blit(u, off, a) != Blit(u, off, b)
  {
    var i :| 0 <= i < |a| && a[i] != b[i];
    assert Blit(u, off, a)[off + i] == a[i] && Blit(u, off, b)[off + i] == b[i];
  }

  lemma Nobody(k: Card, s: State, me: int)
    requires IsoOk(k, s, me)
    ensures IsoOk(k, s, NOBODY)
  {
    forall t | 0 <= t < |s.clients|
      ensures SecOk(k, Look(s, t), t == NOBODY)
    {
      assert SecOk(k, Look(s, t), t == me);
      Unattended(k, Look(s, t), t == me);
    }
  }

  /** What is to be copied out is not what was asked: the write can return 0 with wrong bytes. */
  lemma Spoilt(k: Card, s: State, t: nat, want: seq<Byte>) returns (s': State)
    requires IsoOk(k, s, NOBODY) && t < |s.clients| && Carrying(Look(s, t))
    requires Fated(k, Look(s, t)) != want && |Fated(k, Look(s, t))| == |want| == s.clients[t].l.len
    ensures GoesOn(k, s, s', t) && Back(s', t)
    ensures s'.clients[t].user != Blit(s.clients[t].user, s.clients[t].l.off, want)
  {
    s' := CarriesOn(k, s, t);
    assert LocalOk(Look(s, t));
    BlitDiffers(s.clients[t].user, s.clients[t].l.off, Fated(k, Look(s, t)), want);
  }

  // ----- a store into the message -----

  /** What counts in the window is on its way to what was asked. */
  lemma FatedIsResult(k: Card, v: View)
    requires LocalOk(v) && SecOk(k, v, true) && InWindow(v)
    ensures Fated(k, v) == Result(k, v)
  {}

  /** The message differs in one byte, and so does what becomes of it. */
  lemma FatedDiffers(v: View, v': View, i: nat)
    requires LocalOk(v) && InWindow(v) && v'.c == v.c && v'.j == v.j && |v'.g.dev.window| == |v.g.dev.window|
    requires Unfinished(v') == Unfinished(v)
    requires i < v.c.l.len <= |v.g.dev.window| && v'.g.dev.window[i] != v.g.dev.window[i]
    ensures Fated(SHIFTING, v') != Fated(SHIFTING, v) && |Fated(SHIFTING, v')| == |Fated(SHIFTING, v)| == v.c.l.len
  {
    Shifts(v.j.isE, v.j.keyab, Take(v.g.dev.window, v.c.l.len), Take(v'.g.dev.window, v.c.l.len), i);
  }

  /** A store of another byte into the message: the write can return 0 with wrong bytes. */
  lemma Overwritten(s: State, e: Event, t: nat) returns (s': State)
    requires IsoOk(SHIFTING, s, t) && Enabled(s, e) && t < |s.clients| && e.Hardware? && Overwrites(Look(s, t), e.e)
    ensures GoesOn(SHIFTING, Next(SHIFTING, s, e), s', t) && Back(s', t)
    ensures s'.clients[t].user != Blit(s.clients[t].user, s.clients[t].l.off, Result(SHIFTING, Look(s, t)))
  {
    var v, s1 := Look(s, t), Next(SHIFTING, s, e);
    assert LocalOk(v) && SecOk(SHIFTING, v, true);
    Nobody(SHIFTING, s, t);
    IsoStep(SHIFTING, s, NOBODY, e);
    FatedIsResult(SHIFTING, v);
    FatedDiffers(v, Look(s1, t), e.e.at);
    s' := Spoilt(SHIFTING, s1, t, Result(SHIFTING, v));
  }

  // ----- coming in to a forgotten operation on the window -----

  /** The caller is about to bring its message into the window. */
  predicate Brings(v: View) { v.c.pc == Mmio(LoadKey) || v.c.pc == Mmio(MLen) || v.c.pc == Mmio(MData) }

  lemma LoadStep(k: Card, s: State, t: nat)
    requires IsoOk(k, s, NOBODY) && t < |s.clients| && ByWindow(Look(s, t)) && Brings(Look(s, t))
    ensures var e := Thread(t, Ok);
      && Enabled(s, e) && Bearable(t)(s, e) && IsoOk(k, Next(k, s, e), NOBODY) && t < |Next(k, s, e).clients|
      && Nears(k, Look(s, t), Look(Next(k, s, e), t)) && Next(k, s, e).g.dev.mmio == s.g.dev.mmio
      && (Brings(Look(Next(k, s, e), t)) || Next(k, s, e).clients[t].pc == Mmio(MStatus))
  {
    OnwardStep(k, s, t);
  }

  lemma {:induction false} Loads(k: Card, s: State, t: nat) returns (m: State)
    requires IsoOk(k, s, NOBODY) && t < |s.clients| && ByWindow(Look(s, t)) && Brings(Look(s, t))
    ensures GoesOn(k, s, m, t) && IsoOk(k, m, NOBODY) && t < |m.clients| && SameWrite(Look(s, t), Look(m, t))
    ensures m.g.dev.mmio == s.g.dev.mmio && m.clients[t].pc == Mmio(MStatus)
    ensures Fated(k, Look(m, t)) == Fated(k, Look(s, t))
    decreases Togo(Look(s, t))
  {
    LoadStep(k, s, t);
    m := Next(k, s, Thread(t, Ok));
    if Brings(Look(m, t)) {
      m := Loads(k, m, t);
    } else {
      Stays(k, m, Bearable(t));
    }
    FirstThen(k, s, Thread(t, Ok), m, Bearable(t));
  }

  /** An operation with bytes to replace replaces the first. */
  lemma FirstByteShifted(w: seq<Byte>, op: Op)
    requires op.len > 0 && |w| > 0
    ensures |Replace(SHIFTING, w, op)| == |w| && Replace(SHIFTING, w, op)[0] != w[0]
  {
    var m := Take(w, op.len);
    Shifts(op.isE, op.key, m, m, 0);
  }

  lemma OverrunDiffers(v: View)
    requires LocalOk(v) && ByWindow(v) && v.c.pc == Mmio(MStatus) && |v.g.dev.window| == WINDOW && Pending(v.g.dev.mmio)
    ensures var v' := v.(g := TransformStep(SHIFTING, v.g, false));
      && Fated(SHIFTING, v') != Fated(SHIFTING, v)
      && |Fated(SHIFTING, v')| == |Fated(SHIFTING, v)| == v.c.l.len
  {
    FirstByteShifted(v.g.dev.window, v.g.dev.mmio.value);
    FatedDiffers(v, v.(g := TransformStep(SHIFTING, v.g, false)), 0);
  }

  /** The card's own step while the client is in the section or before it. */
  lemma CardGoes(k: Card, s: State, t: nat, dma: bool)
    requires IsoOk(k, s, NOBODY) && Writing(s, t) && CardEnabled(s.g.dev, Transform(dma))
    ensures var e := Hardware(Transform(dma)); Enabled(s, e) && Bearable(t)(s, e)
    ensures IsoOk(k, s.(g := TransformStep(k, s.g, dma)), NOBODY)
  {
    assert Undisturbed(s, Hardware(Transform(dma)), t);
    IsoStep(k, s, NOBODY, Hardware(Transform(dma)));
  }

  /** With its message in the window while a forgotten operation is still to come, the write can go wrong. */
  lemma Overrun(s: State, t: nat) returns (s': State)
    requires IsoOk(SHIFTING, s, NOBODY) && t < |s.clients| && ByWindow(Look(s, t)) && s.clients[t].pc == Mmio(MStatus)
    requires Pending(s.g.dev.mmio)
    ensures GoesOn(SHIFTING, s, s', t) && Back(s', t)
    ensures s'.clients[t].user != Blit(s.clients[t].user, s.clients[t].l.off, Fated(SHIFTING, Look(s, t)))
  {
    assert LocalOk(Look(s, t));
    CardGoes(SHIFTING, s, t, false);
    OverrunDiffers(Look(s, t));
    s' := Spoilt(SHIFTING, s.(g := TransformStep(SHIFTING, s.g, false)), t, Fated(SHIFTING, Look(s, t)));
    FirstThen(SHIFTING, s, Hardware(Transform(false)), s', Bearable(t));
  }

  /** Coming in to a forgotten operation: the write can return 0 with wrong bytes. */
  lemma Rushed(s: State, e: Event, t: nat) returns (s': State)
    requires IsoOk(SHIFTING, s, t) && Enabled(s, e) && t < |s.clients|
    requires e.Thread? && e.t == t && Rushes(Look(s, t), e.ch)
    ensures GoesOn(SHIFTING, Next(SHIFTING, s, e), s', t) && Back(s', t)
    ensures s'.clients[t].user != Blit(s.clients[t].user, s.clients[t].l.off, Result(SHIFTING, Look(s, t)))
  {
    var k, v := SHIFTING, Look(s, t);
    assert LocalOk(v) && SecOk(k, v, true);
    Nobody(k, s, t);
    IsoStep(k, s, NOBODY, e);
    var s1 := Next(k, s, e);
    assert Look(s1, t) == LocalStep(k, v, e.ch);
    assert Fated(k, Look(s1, t)) == Result(k, v);
    var m := Loads(k, s1, t);
    s' := Overrun(m, t);
    Then(k, s1, m, s', Bearable(t));
  }

  // ----- inheriting a forgotten operation in memory -----

  lemma CopyView(k: Card, v: View)
    requires LocalOk(v) && v.c.pc == Pre(CopyIn)
    ensures var v' := LocalStep(k, v, Ok);
      && v'.c == v.c.(pc := Pre(Down)) && v'.j == v.j && v'.g.dev == v.g.dev && Kernel(v'.g, v'.j) == Chunk(v)
  {
    CopiedIn(v);
  }

  /** The bytes have been copied in, and the forgotten operation has still to run over them. */
  lemma CopiesIn(k: Card, s: State, t: nat) returns (m: State)
    requires IsoOk(k, s, NOBODY) && t < |s.clients| && s.clients[t].pc == Pre(CopyIn)
    ensures GoesOn(k, s, m, t) && IsoOk(k, m, NOBODY) && t < |m.clients| && m.clients[t].pc == Pre(Down)
    ensures SameWrite(Look(s, t), Look(m, t)) && m.g.dev == s.g.dev && Kernel(m.g, Look(m, t).j) == Chunk(Look(s, t))
  {
    assert LocalOk(Look(s, t));
    CopyView(k, Look(s, t));
    OwnGoes(k, s, t);
    m := Next(k, s, Thread(t, Ok));
    assert Look(m, t) == LocalStep(k, Look(s, t), Ok);
  }

  lemma RunOverDiffers(v: View)
    requires LocalOk(v) && v.c.pc == Pre(Down) && v.j.isNotMM && Pending(v.g.dev.dma)
    requires v.j.msg == Some(v.g.dev.dma.value.buf)
    ensures var g := TransformStep(SHIFTING, v.g, true);
      var a := SHIFTING.Cipher(v.j.isE, v.j.keyab, Kernel(g, v.j));
      var b := SHIFTING.Cipher(v.j.isE, v.j.keyab, Kernel(v.g, v.j));
      a != b && |a| == |b| == v.c.l.len
  {
    var m, m' := Kernel(v.g, v.j), Kernel(TransformStep(SHIFTING, v.g, true), v.j);
    FirstByteShifted(m, v.g.dev.dma.value);
    Shifts(v.j.isE, v.j.keyab, m', m, 0);
  }

  /** At the semaphore with an operation still to run over the kernel buffer, the write can go wrong. */
  lemma RunOver(s: State, t: nat, want: seq<Byte>) returns (s': State)
    requires IsoOk(SHIFTING, s, NOBODY) && t < |s.clients| && s.clients[t].pc == Pre(Down) && Look(s, t).j.isNotMM
    requires Pending(s.g.dev.dma) && Look(s, t).j.msg == Some(s.g.dev.dma.value.buf)
    requires want == SHIFTING.Cipher(Look(s, t).j.isE, Look(s, t).j.keyab, Kernel(s.g, Look(s, t).j))
    ensures GoesOn(SHIFTING, s, s', t) && Back(s', t)
    ensures s'.clients[t].user != Blit(s.clients[t].user, s.clients[t].l.off, want)
  {
    var v, s1 := Look(s, t), s.(g := TransformStep(SHIFTING, s.g, true));
    assert LocalOk(v);
    CardGoes(SHIFTING, s, t, true);
    RunOverDiffers(v);
    s' := FromDown(SHIFTING, s1, t);
    FirstThen(SHIFTING, s, Hardware(Transform(true)), s', Bearable(t));
    BlitDiffers(v.c.user, v.c.l.off, SHIFTING.Cipher(v.j.isE, v.j.keyab, Kernel(s1.g, v.j)), want);
  }

  lemma InheritsIt(k: Card, v: View, ch: Choice)
    requires Inherits(v, ch)
    ensures var v' := LocalStep(k, v, ch);
      && v'.c == v.c.(pc := Pre(CopyIn)) && v'.j == v.j.(len := v'.j.len, msg := v'.j.msg)
      && Pending(v'.g.dev.dma) && v'.j.msg == Some(v'.g.dev.dma.value.buf)
  {}

  lemma Allocates(k: Card, s: State, t: nat, ch: Choice)
    requires IsoOk(k, s, NOBODY) && t < |s.clients| && Inherits(Look(s, t), ch)
    ensures Enabled(s, Thread(t, ch)) && IsoOk(k, Next(k, s, Thread(t, ch)), NOBODY)
    ensures Look(Next(k, s, Thread(t, ch)), t) == LocalStep(k, Look(s, t), ch)
  {
    IsoStep(k, s, NOBODY, Thread(t, ch));
  }

  lemma InheritsIn(k: Card, s: State, t: nat, ch: Choice)
    requires IsoOk(k, s, NOBODY) && t < |s.clients| && Inherits(Look(s, t), ch)
    ensures Enabled(s, Thread(t, ch)) && IsoOk(k, Next(k, s, Thread(t, ch)), NOBODY)
    ensures var v, v' := Look(s, t), Look(Next(k, s, Thread(t, ch)), t);
      && v'.c.pc == Pre(CopyIn) && v'.c.user == v.c.user && v'.c.l == v.c.l && v'.j.isNotMM
      && Pending(v'.g.dev.dma) && v'.j.msg == Some(v'.g.dev.dma.value.buf) && Result(k, v') == Result(k, v)
  {
    Allocates(k, s, t, ch);
    InheritsIt(k, Look(s, t), ch);
  }

  /** With its bytes still to be copied into such memory, the write can go wrong. */
  lemma FromCopyIn(s: State, t: nat) returns (s': State)
    requires IsoOk(SHIFTING, s, NOBODY) && t < |s.clients| && s.clients[t].pc == Pre(CopyIn) && Look(s, t).j.isNotMM
    requires Pending(s.g.dev.dma) && Look(s, t).j.msg == Some(s.g.dev.dma.value.buf)
    ensures GoesOn(SHIFTING, s, s', t) && Back(s', t)
    ensures s'.clients[t].user != Blit(s.clients[t].user, s.clients[t].l.off, Result(SHIFTING, Look(s, t)))
  {
    var m := CopiesIn(SHIFTING, s, t);
    s' := RunOver(m, t, Result(SHIFTING, Look(s, t)));
    Then(SHIFTING, s, m, s', Bearable(t));
  }

  /** Being given the memory of a forgotten operation: the write can return 0 with wrong bytes. */
  lemma Inheriting(s: State, e: Event, t: nat) returns (s': State)
    requires IsoOk(SHIFTING, s, t) && Enabled(s, e) && t < |s.clients|
    requires e.Thread? && e.t == t && Inherits(Look(s, t), e.ch)
    ensures GoesOn(SHIFTING, Next(SHIFTING, s, e), s', t) && Back(s', t)
    ensures s'.clients[t].user != Blit(s.clients[t].user, s.clients[t].l.off, Result(SHIFTING, Look(s, t)))
  {
    Nobody(SHIFTING, s, t);
    InheritsIn(SHIFTING, s, t, e.ch);
    s' := FromCopyIn(Next(SHIFTING, s, e), t);
  }

  // ----- exactly these -----

  /**
   * Exactly the three hazards: with the shifting card an event during an unmapped write may be
   * followed by a return of 0 with wrong bytes, nothing more disturbing the write, if and only if
   * it is a store of another byte into the message in the window, the writer's coming in to a
   * forgotten operation there, or its being given the memory of one.
   */
  lemma HazardExactly(s: State, e: Event, t: nat)
    requires IsoOk(SHIFTING, s, t) && Enabled(s, e)
    requires t < |s.clients| && Before(s.clients[t].pc) && Look(s, t).j.isNotMM
    ensures Undisturbed(s, e, t) <==>
      forall s' :: GoesOn(SHIFTING, Next(SHIFTING, s, e), s', t) && Back(s', t) ==>
        s'.clients[t].user == Blit(s.clients[t].user, s.clients[t].l.off, Result(SHIFTING, Look(s, t)))
  {
    if Undisturbed(s, e, t) {
      forall s' | GoesOn(SHIFTING, Next(SHIFTING, s, e), s', t) && Back(s', t)
        ensures s'.clients[t].user == Blit(s.clients[t].user, s.clients[t].l.off, Result(SHIFTING, Look(s, t)))
      {
        Borne(SHIFTING, s, e, t, s');
      }
    } else {
      var s': State;
      if e.Hardware? {
        s' := Overwritten(s, e, t);
      } else if Rushes(Look(s, t), e.ch) {
        s' := Rushed(s, e, t);
      } else {
        s' := Inheriting(s, e, t);
      }
    }
  }

  /** The same in the middle of any run that has not disturbed the caller so far. */
  lemma HazardInRun(tr: seq<State>, ev: seq<Event>, t: nat, i: nat, n: nat)
    requires FromStart(SHIFTING, tr, ev) && i <= n < |ev| && QuietRun(tr, ev, t, i, n)
    requires t < |tr[i].clients| && tr[i].clients[t].pc.Idle?
    requires WellFormed(tr[n]) && t < |tr[n].clients| && Before(tr[n].clients[t].pc) && Look(tr[n], t).j.isNotMM
    ensures Undisturbed(tr[n], ev[n], t) <==>
      forall s' :: GoesOn(SHIFTING, tr[n + 1], s', t) && Back(s', t) ==>
        s'.clients[t].user == Blit(tr[n].clients[t].user, tr[n].clients[t].l.off, Result(SHIFTING, Look(tr[n], t)))
  {
    ShiftingIsGood();
    IsoRun(SHIFTING, tr, ev, i);
    IdleIsFresh(SHIFTING, tr[i], t);
    QuietIso(SHIFTING, tr, ev, t, i, n);
    StepFacts(SHIFTING, tr, ev, n);
    HazardExactly(tr[n], ev[n], t);
  }
}
