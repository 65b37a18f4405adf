/**
 * Ways on for a write: from wherever it stands, and whatever has become of its bytes, there are
 * events that take it to its return with 0 and do not disturb it on the way.
 */
module Ways {
  import opened Types
  import opened Machine
  import opened Semaphore
  import opened Buffers
  import opened Isolation
  import opened EndToEnd
  import opened Paths

  // ----- a write under way, otherwise undisturbed -----

  /** From the entry to the return of `pci_write`. */
  predicate Writing(s: State, t: nat) {
    t < |s.clients| && (s.clients[t].pc.Pre? || InSection(s.clients[t].pc) || s.clients[t].pc.Free?)
  }

  /** The write of client `t` is under way, and the event does not disturb it. */
  function Bearable(t: nat): (State, Event) -> bool {
    (s: State, e: Event) => WellFormed(s) && Writing(s, t) && Undisturbed(s, e, t)
  }

  ghost predicate GoesOn(k: Card, s: State, s': State, t: nat) { Comes(k, s, s', Bearable(t)) }

  /** The write has just returned 0: the library goes on with the next chunk, or returns 0 itself. */
  predicate Back(s: State, t: nat) {
    t < |s.clients| && (s.clients[t].pc == Lib(LoopTop) || (s.clients[t].pc == Idle && s.clients[t].l.ret == 0))
  }

  // ----- inside the section -----

  /** An unmapped write inside the section, not yet copied out. */
  predicate Carrying(v: View) { v.j.isNotMM && InSection(v.c.pc) && !v.c.pc.Up? }

  /** The operation a waiting writer waits for. */
  function OwnOp(v: View): Option<Op> { if v.j.isM then v.g.dev.mmio else v.g.dev.dma }

  predicate Unfinished(v: View) { Waits(v) && OwnOp(v).Some? && !OwnOp(v).value.done }

  /** What the caller will be handed if nothing else changes its bytes. */
  function Fated(k: Card, v: View): seq<Byte> {
    var kernel, message := Kernel(v.g, v.j), Take(v.g.dev.window, v.c.l.len);
    var bytes := if InWindow(v) then message else kernel;
    match v.c.pc
    case Mmio(MOut) => bytes
    case Mmio(MUser) => bytes
    case Dma(DUnmap) => bytes
    case Dma(DUser) => bytes
    case _ => if Waits(v) && !Unfinished(v) then bytes else k.Cipher(v.j.isE, v.j.keyab, bytes)
  }

  /** An event that takes the write on: its own next statement, the card's work, or a signal to a sleeper. */
  function Onward(v: View, t: nat): Event {
    if Waits(v) && OwnOp(v).Some? then Hardware(if OwnOp(v).value.done then Finish(!v.j.isM) else Transform(!v.j.isM))
    else Thread(t, if v.c.pc == Wait(Sleep) && !v.c.woken then Signal else Ok)
  }

  /** How far it is to the copy-out. */
  function Togo(v: View): nat {
    if Waits(v) && OwnOp(v).Some? then if OwnOp(v).value.done then 9 else 10
    else match v.c.pc
      case Mmio(LoadKey) => 16
      case Mmio(MLen) => 15
      case Dma(DMap) => 15
      case Mmio(MData) => 14
      case Dma(DAddr) => 14
      case Mmio(MStatus) => 13
      case Dma(DLen) => 13
      case Mmio(MStart) => 12
      case Dma(DCmd) => 12
      case Wait(Sleep) => 7
      case Wait(Enqueue) => 6
      case Wait(_) => 5
      case Mmio(MPoll) => 5
      case Dma(DPoll) => 5
      case Mmio(MOut) => 4
      case Dma(DUnmap) => 4
      case _ => 3
  }

  /** The same write of the same bytes. */
  predicate SameWrite(v: View, v': View) {
    v'.j == v.j && v'.c.h == v.c.h && v'.c.user == v.c.user && v'.c.l == v.c.l && |v'.g.dev.window| == |v.g.dev.window|
  }

  /** Nearer, and fated to the same bytes. */
  predicate Nears(k: Card, v: View, v': View) {
    SameWrite(v, v') && Carrying(v') && Togo(v') < Togo(v) && Fated(k, v') == Fated(k, v)
  }

  lemma RegistersNear(k: Card, v: View, pc: MmioPC)
    requires LocalOk(v) && SecOk(k, v, false) && Carrying(v) && v.c.pc == Mmio(pc)
    requires pc.LoadKey? || pc.MLen? || pc.MStatus?
    ensures Nears(k, v, MmioStep(v, pc, Ok))
  {}

  /** The message goes into the window. */
  lemma DataNears(k: Card, v: View)
    requires LocalOk(v) && SecOk(k, v, false) && Carrying(v) && v.c.pc == Mmio(MData) && |v.g.dev.window| == WINDOW
    ensures Nears(k, v, MmioStep(v, MData, Ok))
  {
    var m := Kernel(v.g, v.j);
    assert Take(m, v.j.len) == m;
    assert Take(Blit(v.g.dev.window, 0, m), v.c.l.len) == m;
  }

  lemma StartNears(k: Card, v: View)
    requires LocalOk(v) && SecOk(k, v, false) && Carrying(v) && v.c.pc == Mmio(MStart)
    ensures Nears(k, v, MmioStep(v, MStart, Ok))
  {}

  /** And back out of it. */
  lemma OutNears(k: Card, v: View)
    requires LocalOk(v) && SecOk(k, v, false) && Carrying(v) && v.c.pc == Mmio(MOut) && |v.g.dev.window| == WINDOW
    ensures Nears(k, v, MmioStep(v, MOut, Ok))
  {
    var m := Take(v.g.dev.window, v.j.len);
    assert Blit(v.g.heap[v.j.msg.value], 0, m) == m;
  }

  lemma PollNears(k: Card, v: View)
    requires LocalOk(v) && SecOk(k, v, false) && Carrying(v) && v.c.pc == Mmio(MPoll) && v.g.dev.mmio.None?
    ensures Nears(k, v, MmioStep(v, MPoll, Ok))
  {}

  lemma MmioNears(k: Card, v: View, pc: MmioPC)
    requires LocalOk(v) && SecOk(k, v, false) && Carrying(v) && v.c.pc == Mmio(pc) && |v.g.dev.window| == WINDOW
    requires !pc.MUser? && (pc.MPoll? ==> v.g.dev.mmio.None?)
    ensures Nears(k, v, MmioStep(v, pc, Ok))
  {
    match pc
    case MData => DataNears(k, v);
    case MStart => StartNears(k, v);
    case MOut => OutNears(k, v);
    case MPoll => PollNears(k, v);
    case LoadKey => RegistersNear(k, v, pc);
    case MLen => RegistersNear(k, v, pc);
    case MStatus => RegistersNear(k, v, pc);
  }

  lemma DmaNears(k: Card, v: View, pc: DmaPC)
    requires LocalOk(v) && SecOk(k, v, false) && Carrying(v) && v.c.pc == Dma(pc)
    requires !pc.DUser? && !pc.DCmd? && (pc.DPoll? ==> v.g.dev.dma.None?)
    ensures Nears(k, v, DmaStep(v, pc, Ok))
  {}

  lemma CommandNears(k: Card, v: View)
    requires LocalOk(v) && SecOk(k, v, false) && Carrying(v) && v.c.pc == Dma(DCmd)
    ensures Nears(k, v, DmaStep(v, DCmd, Ok))
  {}

  lemma WaitNears(k: Card, v: View, pc: WaitPC, ch: Choice)
    requires LocalOk(v) && SecOk(k, v, false) && Carrying(v) && v.c.pc == Wait(pc) && OwnOp(v).None?
    requires ch == if pc.Sleep? && !v.c.woken then Signal else Ok
    ensures ThreadEnabled(v, ch) && Nears(k, v, WaitStep(v, pc, ch))
  {}

  lemma OwnNears(k: Card, v: View, t: nat)
    requires LocalOk(v) && SecOk(k, v, false) && Carrying(v) && !CopiesOut(v) && |v.g.dev.window| == WINDOW
    requires Onward(v, t).Thread?
    ensures ThreadEnabled(v, Onward(v, t).ch) && Nears(k, v, LocalStep(k, v, Onward(v, t).ch))
  {
    match v.c.pc
    case Mmio(pc) => MmioNears(k, v, pc);
    case Dma(pc) => if pc.DCmd? { CommandNears(k, v); } else { DmaNears(k, v, pc); }
    case Wait(pc) => WaitNears(k, v, pc, Onward(v, t).ch);
  }

  /** The card's own pass, over whatever is in the window. */
  lemma WindowNears(k: Card, v: View)
    requires k.Good() && LocalOk(v) && SecOk(k, v, false) && Carrying(v) && Unfinished(v) && v.j.isM
    requires |v.g.dev.window| == WINDOW
    ensures Nears(k, v, v.(g := TransformStep(k, v.g, false)))
  {
    var op, m := v.g.dev.mmio.value, Take(v.g.dev.window, v.c.l.len);
    assert Asked(v, op) && |k.Cipher(op.isE, op.key, m)| == |m|;
    assert Take(Replace(k, v.g.dev.window, op), v.c.l.len) == k.Cipher(op.isE, op.key, m);
  }

  /** Or over whatever is in the kernel buffer. */
  lemma MemoryNears(k: Card, v: View)
    requires k.Good() && LocalOk(v) && SecOk(k, v, false) && Carrying(v) && Unfinished(v) && !v.j.isM
    ensures Nears(k, v, v.(g := TransformStep(k, v.g, true)))
  {
    var op, m := v.g.dev.dma.value, Kernel(v.g, v.j);
    assert Asked(v, op) && v.j.msg == Some(op.buf) && |k.Cipher(op.isE, op.key, m)| == |m|;
    assert Take(m, op.len) == m && Replace(k, m, op) == k.Cipher(op.isE, op.key, m);
  }

  lemma FinishNears(k: Card, v: View)
    requires Carrying(v) && Waits(v) && OwnOp(v).Some? && OwnOp(v).value.done
    ensures Nears(k, v, v.(g := v.g.(dev := FinishStep(v.g.dev, !v.j.isM))))
  {}

  lemma OnwardThread(k: Card, s: State, t: nat)
    requires IsoOk(k, s, NOBODY) && t < |s.clients| && Carrying(Look(s, t)) && !CopiesOut(Look(s, t))
    requires Onward(Look(s, t), t).Thread?
    ensures var e := Onward(Look(s, t), t);
      Enabled(s, e) && Undisturbed(s, e, t) && t < |Next(k, s, e).clients| && WellFormed(Next(k, s, e))
    ensures Nears(k, Look(s, t), Look(Next(k, s, Onward(Look(s, t), t)), t))
  {
    var v, ch := Look(s, t), Onward(Look(s, t), t).ch;
    assert LocalOk(v) && SecOk(k, v, false);
    OwnNears(k, v, t);
    LocalMoves(k, v, ch);
    assert Look(Store(s, t, LocalStep(k, v, ch)), t) == LocalStep(k, v, ch);
  }

  lemma OnwardCard(k: Card, s: State, t: nat)
    requires IsoOk(k, s, NOBODY) && t < |s.clients| && Carrying(Look(s, t)) && Onward(Look(s, t), t).Hardware?
    ensures var e := Onward(Look(s, t), t);
      Enabled(s, e) && Undisturbed(s, e, t) && t < |Next(k, s, e).clients| && WellFormed(Next(k, s, e))
    ensures Nears(k, Look(s, t), Look(Next(k, s, Onward(Look(s, t), t)), t))
  {
    var v := Look(s, t);
    assert LocalOk(v) && SecOk(k, v, false);
    if OwnOp(v).value.done {
      FinishNears(k, v);
    } else if v.j.isM {
      WindowNears(k, v);
    } else {
      MemoryNears(k, v);
    }
  }

  lemma OnwardStep(k: Card, s: State, t: nat)
    requires IsoOk(k, s, NOBODY) && t < |s.clients| && Carrying(Look(s, t)) && !CopiesOut(Look(s, t))
    ensures var e := Onward(Look(s, t), t);
      Enabled(s, e) && Bearable(t)(s, e) && t < |Next(k, s, e).clients| && IsoOk(k, Next(k, s, e), NOBODY)
    ensures Nears(k, Look(s, t), Look(Next(k, s, Onward(Look(s, t), t)), t))
  {
    var e := Onward(Look(s, t), t);
    if e.Thread? {
      OnwardThread(k, s, t);
    } else {
      OnwardCard(k, s, t);
    }
    IsoStep(k, s, NOBODY, e);
  }

  /** On to the copy-out. */
  lemma {:induction false} ToCopyOut(k: Card, s: State, t: nat) returns (m: State)
    requires IsoOk(k, s, NOBODY) && t < |s.clients| && Carrying(Look(s, t))
    ensures GoesOn(k, s, m, t) && IsoOk(k, m, NOBODY) && t < |m.clients| && SameWrite(Look(s, t), Look(m, t))
    ensures CopiesOut(Look(m, t)) && Carrying(Look(m, t)) && Fated(k, Look(m, t)) == Fated(k, Look(s, t))
    decreases Togo(Look(s, t))
  {
    if CopiesOut(Look(s, t)) {
      m := s;
      Stays(k, s, Bearable(t));
    } else {
      var e := Onward(Look(s, t), t);
      OnwardStep(k, s, t);
      m := ToCopyOut(k, Next(k, s, e), t);
      FirstThen(k, s, e, m, Bearable(t));
    }
  }

  lemma OwnGoes(k: Card, s: State, t: nat)
    requires IsoOk(k, s, NOBODY) && Writing(s, t) && ThreadEnabled(Look(s, t), Ok)
    requires s.clients[t].pc == Pre(Down) && ByWindow(Look(s, t)) ==> Harmless(s.g.dev)
    ensures Enabled(s, Thread(t, Ok)) && Bearable(t)(s, Thread(t, Ok)) && GoesOn(k, s, Next(k, s, Thread(t, Ok)), t)
    ensures var v' := LocalStep(k, Look(s, t), Ok);
      Next(k, s, Thread(t, Ok)) == Store(s, t, v') && v'.c.h == s.clients[t].h
    ensures IsoOk(k, Next(k, s, Thread(t, Ok)), NOBODY)
  {
    LocalMoves(k, Look(s, t), Ok);
    IsoStep(k, s, NOBODY, Thread(t, Ok));
    OneEvent(k, s, Thread(t, Ok), Bearable(t));
  }

  lemma FromFree(k: Card, s: State, t: nat) returns (m: State)
    requires IsoOk(k, s, NOBODY) && t < |s.clients| && s.clients[t].pc == Free(true)
    ensures GoesOn(k, s, m, t) && Back(m, t) && m.clients[t].user == s.clients[t].user
  {
    OwnGoes(k, s, t);
    m := Next(k, s, Thread(t, Ok));
    assert m.clients[t] == Returned(s.clients[t], 0);
  }

  /** From the up to the return. */
  lemma FromUp(k: Card, s: State, t: nat) returns (m: State)
    requires IsoOk(k, s, NOBODY) && t < |s.clients| && s.clients[t].pc == Up(true)
    ensures GoesOn(k, s, m, t) && Back(m, t) && m.clients[t].user == s.clients[t].user
  {
    OwnGoes(k, s, t);
    var s1 := Next(k, s, Thread(t, Ok));
    m := FromFree(k, s1, t);
    Then(k, s, s1, m, Bearable(t));
  }

  lemma CopyOutIsFated(k: Card, v: View)
    requires LocalOk(v) && Carrying(v) && CopiesOut(v)
    ensures LocalStep(k, v, Ok) == v.(c := CopyOut(v.c, Fated(k, v), Ok))
  {
    assert Take(Kernel(v.g, v.j), v.j.len) == Kernel(v.g, v.j);
  }

  /** From the copy-out to the return. */
  lemma ToReturn(k: Card, s: State, t: nat) returns (m: State)
    requires IsoOk(k, s, NOBODY) && t < |s.clients| && Carrying(Look(s, t)) && CopiesOut(Look(s, t))
    ensures GoesOn(k, s, m, t) && Back(m, t)
    ensures m.clients[t].user == Blit(s.clients[t].user, s.clients[t].l.off, Fated(k, Look(s, t)))
  {
    assert LocalOk(Look(s, t));
    CopyOutIsFated(k, Look(s, t));
    OwnGoes(k, s, t);
    m := FromUp(k, Next(k, s, Thread(t, Ok)), t);
    Then(k, s, Next(k, s, Thread(t, Ok)), m, Bearable(t));
  }

  /** With any good card: a writer inside the section can come to return 0 with what its bytes have become. */
  lemma CarriesOn(k: Card, s: State, t: nat) returns (s': State)
    requires IsoOk(k, s, NOBODY) && t < |s.clients| && Carrying(Look(s, t))
    ensures GoesOn(k, s, s', t) && Back(s', t)
    ensures s'.clients[t].user == Blit(s.clients[t].user, s.clients[t].l.off, Fated(k, Look(s, t)))
  {
    var m := ToCopyOut(k, s, t);
    s' := ToReturn(k, m, t);
    Then(k, s, m, s', Bearable(t));
  }

  // ----- at the semaphore -----

  /** An event that takes the holder of the semaphore out; its wait need not end well. */
  function Outward(v: View, u: nat): Event {
    if !v.c.pc.Wait? && Waits(v) && OwnOp(v).Some?
    then Hardware(if OwnOp(v).value.done then Finish(!v.j.isM) else Transform(!v.j.isM))
    else Thread(u, if v.c.pc == Wait(Check) || v.c.pc == Wait(Sleep) then Signal else Ok)
  }

  /** How far it is to the up. */
  function Inwards(v: View): nat {
    match v.c.pc
    case Mmio(LoadKey) => 16
    case Mmio(MLen) => 15
    case Dma(DMap) => 15
    case Mmio(MData) => 14
    case Dma(DAddr) => 14
    case Mmio(MStatus) => 13
    case Dma(DLen) => 13
    case Mmio(MStart) => 12
    case Dma(DCmd) => 12
    case Wait(First) => 11
    case Wait(Sleep) => 10
    case Wait(Enqueue) => 9
    case Wait(Check) => 8
    case Mmio(MOut) => 4
    case Dma(DUnmap) => 4
    case Mmio(MUser) => 3
    case Dma(DUser) => 3
    case Up(_) => 2
    case _ => if OwnOp(v).None? then 9 else if OwnOp(v).value.done then 10 else 11
  }

  predicate Recedes(v: View, v': View) { !InSection(v'.c.pc) || Inwards(v') < Inwards(v) }

  lemma MmioRecedes(k: Card, v: View, pc: MmioPC)
    requires LocalOk(v) && SecOk(k, v, false) && v.c.pc == Mmio(pc) && (pc.MPoll? ==> v.g.dev.mmio.None?)
    ensures Recedes(v, MmioStep(v, pc, Ok))
  {}

  lemma DmaRecedes(k: Card, v: View, pc: DmaPC)
    requires LocalOk(v) && SecOk(k, v, false) && v.c.pc == Dma(pc) && (pc.DPoll? ==> v.g.dev.dma.None?)
    ensures Recedes(v, DmaStep(v, pc, Ok))
  {}

  lemma WaitRecedes(v: View, pc: WaitPC)
    requires LocalOk(v) && v.c.pc == Wait(pc)
    ensures Recedes(v, WaitStep(v, pc, Outward(v, 0).ch))
  {}

  lemma OwnRecedes(k: Card, v: View, u: nat)
    requires LocalOk(v) && SecOk(k, v, false) && InSection(v.c.pc) && Outward(v, u).Thread?
    ensures ThreadEnabled(v, Outward(v, u).ch) && Recedes(v, LocalStep(k, v, Outward(v, u).ch))
  {
    match v.c.pc
    case Mmio(pc) => MmioRecedes(k, v, pc);
    case Dma(pc) => DmaRecedes(k, v, pc);
    case Wait(pc) => WaitRecedes(v, pc);
    case Up(_) =>
  }

  lemma CardRecedes(k: Card, v: View, u: nat)
    requires LocalOk(v) && SecOk(k, v, false) && InSection(v.c.pc) && Outward(v, u).Hardware?
    ensures CardEnabled(v.g.dev, Outward(v, u).e) && Recedes(v, v.(g := CardStep(k, v.g, Outward(v, u).e)))
    ensures Outward(v, u).e == Transform(true) ==> v.j.msg == Some(v.g.dev.dma.value.buf)
  {}

  /** Client `t` still stands where it stood, with the same bytes in its kernel buffer. */
  predicate StillThere(s: State, s': State, t: nat) {
    && WellFormed(s) && WellFormed(s') && t < |s.clients| == |s'.clients|
    && s'.clients[t] == s.clients[t] && Look(s', t).j == Look(s, t).j
    && Kernel(s'.g, Look(s', t).j) == Kernel(s.g, Look(s, t).j)
  }

  /** What another client does to its own buffer. */
  lemma OwnAside(k: Card, s: State, t: nat, u: nat, ch: Choice)
    requires IsoOk(k, s, NOBODY) && t < |s.clients| && u < |s.clients| && t != u && ThreadEnabled(Look(s, u), ch)
    ensures StillThere(s, Next(k, s, Thread(u, ch)), t)
    ensures Look(Next(k, s, Thread(u, ch)), u) == LocalStep(k, Look(s, u), ch)
  {
    var v, x := LocalStep(k, Look(s, u), ch), Look(s, t);
    LocalBuf(k, Look(s, u), ch);
    assert Look(Store(s, u, v), u) == v;
    assert LocalOk(x);
    if x.j.msg.Some? {
      var b := x.j.msg.value;
      assert Owns(s, t, b) && !Owns(s, u, b);
      OwnNameIsOld(s, t, b);
    }
    assert Look(Store(s, u, v), t) == x.(g := v.g);
  }

  /** What the card does to the holder's. */
  lemma CardAside(k: Card, s: State, t: nat, u: nat)
    requires IsoOk(k, s, NOBODY) && t < |s.clients| && u < |s.clients| && t != u
    requires InSection(s.clients[u].pc) && Outward(Look(s, u), u).Hardware?
    ensures Enabled(s, Outward(Look(s, u), u)) && StillThere(s, Next(k, s, Outward(Look(s, u), u)), t)
  {
    var v, x := Look(s, u), Look(s, t);
    assert LocalOk(v) && SecOk(k, v, false);
    CardRecedes(k, v, u);
    if x.j.msg.Some? { assert Owns(s, t, x.j.msg.value) && !Owns(s, u, x.j.msg.value); }
  }

  /** At the semaphore nothing that another does disturbs a writer. */
  lemma BearsAll(s: State, e: Event, t: nat)
    requires WellFormed(s) && t < |s.clients| && s.clients[t].pc == Pre(Down) && (e.Thread? ==> e.t != t)
    ensures Bearable(t)(s, e)
  {
    assert Writing(s, t) && Undisturbed(s, e, t);
  }

  lemma OutwardOwn(k: Card, s: State, t: nat, u: nat)
    requires IsoOk(k, s, NOBODY) && t < |s.clients| && u < |s.clients| && s.clients[t].pc == Pre(Down) && Inside(s, u)
    requires Outward(Look(s, u), u).Thread?
    ensures var e := Outward(Look(s, u), u);
      && Enabled(s, e) && StillThere(s, Next(k, s, e), t)
      && u < |Next(k, s, e).clients| && Recedes(Look(s, u), Look(Next(k, s, e), u))
  {
    var v, ch := Look(s, u), Outward(Look(s, u), u).ch;
    assert LocalOk(v) && SecOk(k, v, false);
    OwnRecedes(k, v, u);
    OwnAside(k, s, t, u, ch);
  }

  lemma OutwardCard(k: Card, s: State, t: nat, u: nat)
    requires IsoOk(k, s, NOBODY) && t < |s.clients| && u < |s.clients| && s.clients[t].pc == Pre(Down) && Inside(s, u)
    requires Outward(Look(s, u), u).Hardware?
    ensures var e := Outward(Look(s, u), u);
      && Enabled(s, e) && StillThere(s, Next(k, s, e), t)
      && u < |Next(k, s, e).clients| && Recedes(Look(s, u), Look(Next(k, s, e), u))
  {
    assert LocalOk(Look(s, u)) && SecOk(k, Look(s, u), false);
    CardRecedes(k, Look(s, u), u);
    CardAside(k, s, t, u);
  }

  lemma OutwardStep(k: Card, s: State, t: nat, u: nat)
    requires IsoOk(k, s, NOBODY) && t < |s.clients| && u < |s.clients| && s.clients[t].pc == Pre(Down) && Inside(s, u)
    ensures var e := Outward(Look(s, u), u);
      && Enabled(s, e) && Bearable(t)(s, e) && IsoOk(k, Next(k, s, e), NOBODY) && StillThere(s, Next(k, s, e), t)
      && u < |Next(k, s, e).clients| && Recedes(Look(s, u), Look(Next(k, s, e), u))
  {
    if Outward(Look(s, u), u).Thread? {
      OutwardOwn(k, s, t, u);
    } else {
      OutwardCard(k, s, t, u);
    }
    BearsAll(s, Outward(Look(s, u), u), t);
    IsoStep(k, s, NOBODY, Outward(Look(s, u), u));
  }

  lemma OutIsFree(k: Card, s: State, u: nat, e: Event)
    requires SemOk(s) && Enabled(s, e) && u < |s.clients| && Inside(s, u) && (e.Thread? ==> e.t == u) && !e.User?
    requires u < |Next(k, s, e).clients| && !Inside(Next(k, s, e), u) && !e.Irq?
    ensures Next(k, s, e).g.sem > 0
  {
    if e.Thread? { LocalMoves(k, Look(s, u), e.ch); }
  }

  lemma {:induction false} HolderOut(k: Card, s: State, t: nat, u: nat) returns (m: State)
    requires IsoOk(k, s, NOBODY) && t < |s.clients| && u < |s.clients| && s.clients[t].pc == Pre(Down) && Inside(s, u)
    ensures GoesOn(k, s, m, t) && IsoOk(k, m, NOBODY) && StillThere(s, m, t) && m.g.sem > 0
    decreases Inwards(Look(s, u))
  {
    var e := Outward(Look(s, u), u);
    OutwardStep(k, s, t, u);
    m := Next(k, s, e);
    if Inside(m, u) {
      m := HolderOut(k, m, t, u);
    } else {
      OutIsFree(k, s, u, e);
      Stays(k, m, Bearable(t));
    }
    FirstThen(k, s, e, m, Bearable(t));
  }

  /** Whoever holds the semaphore can be taken out, and the writer at the semaphore does not notice. */
  lemma Clears(k: Card, s: State, t: nat) returns (m: State)
    requires IsoOk(k, s, NOBODY) && t < |s.clients| && s.clients[t].pc == Pre(Down)
    ensures GoesOn(k, s, m, t) && IsoOk(k, m, NOBODY) && StillThere(s, m, t) && m.g.sem > 0
  {
    if s.g.sem > 0 {
      m := s;
      Stays(k, s, Bearable(t));
    } else {
      var u :| 0 <= u < |s.clients| && Inside(s, u);
      m := HolderOut(k, s, t, u);
    }
  }

  /** So can an operation on the window be let to its end. */
  lemma RunsOut(k: Card, s: State, t: nat) returns (m: State)
    requires IsoOk(k, s, NOBODY) && t < |s.clients| && s.clients[t].pc == Pre(Down)
    ensures GoesOn(k, s, m, t) && IsoOk(k, m, NOBODY) && StillThere(s, m, t) && m.g.sem == s.g.sem && Harmless(m.g.dev)
  {
    if Harmless(s.g.dev) {
      m := s;
      Stays(k, s, Bearable(t));
    } else {
      var e := Hardware(Transform(false));
      BearsAll(s, e, t);
      IsoStep(k, s, NOBODY, e);
      OneEvent(k, s, e, Bearable(t));
      m := Next(k, s, e);
    }
  }

  lemma ComesIn(k: Card, s: State, t: nat) returns (m: State)
    requires IsoOk(k, s, NOBODY) && t < |s.clients| && s.clients[t].pc == Pre(Down) && s.g.sem > 0 && Harmless(s.g.dev)
    requires Look(s, t).j.isNotMM
    ensures GoesOn(k, s, m, t) && IsoOk(k, m, NOBODY) && t < |m.clients| && Carrying(Look(m, t))
    ensures m.clients[t].user == s.clients[t].user && m.clients[t].l == s.clients[t].l
    ensures var v := Look(s, t); Fated(k, Look(m, t)) == k.Cipher(v.j.isE, v.j.keyab, Kernel(v.g, v.j))
  {
    OwnGoes(k, s, t);
    m := Next(k, s, Thread(t, Ok));
    assert Look(m, t) == LocalStep(k, Look(s, t), Ok);
  }

  /** A writer at the semaphore can come to return 0 with the cipher of whatever its kernel buffer holds. */
  lemma FromDown(k: Card, s: State, t: nat) returns (s': State)
    requires IsoOk(k, s, NOBODY) && t < |s.clients| && s.clients[t].pc == Pre(Down) && Look(s, t).j.isNotMM
    ensures GoesOn(k, s, s', t) && Back(s', t)
    ensures var v := Look(s, t);
      s'.clients[t].user == Blit(v.c.user, v.c.l.off, k.Cipher(v.j.isE, v.j.keyab, Kernel(v.g, v.j)))
  {
    var s1 := Clears(k, s, t);
    var s2 := RunsOut(k, s1, t);
    var s3 := ComesIn(k, s2, t);
    s' := CarriesOn(k, s3, t);
    Then(k, s2, s3, s', Bearable(t));
    Then(k, s1, s2, s', Bearable(t));
    Then(k, s, s1, s', Bearable(t));
  }
}
