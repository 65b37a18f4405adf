/**
 * Reachable runs that show each hypothesis of the theorems is needed: one call in flight per
 * handle, no interrupted wait, no inherited memory, no store into a window in use, by a mapped
 * caller too, an uninterrupted handler, and no mixing of the interrupt modes.
 */
module Witness {
  import opened Types
  import opened Machine
  import opened Semaphore
  import opened Wakeups
  import opened Runs
  import Ioctl

  // ----- the runs -----

  /** Stores into the window, and nothing else out of the ordinary. */
  const POKES := Rules(false, true, false, false)

  const REST := Device(0, 0, 0, 0, 0, 0, 0, 0, Zeros(WINDOW), None, None, 0)
  const EMPTY := Shared(map[], 0, [], {}, 1, REST)

  function Newcomer(h: nat, user: seq<Byte>): Client {
    Client(h, user, Idle, Loop(false, false, 0, 0, 0, 0), 0, 0, false, false, 0, 0)
  }

  /** Two clients with one byte each, on the handles given. */
  function Boot(h: nat, a: Byte, b: Byte): State
    requires h <= 1
  {
    State([Newcomer(0, [a]), Newcomer(h, [b])], [OPENED, OPENED], EMPTY, Quiet)
  }

  lemma BootIsInitial(h: nat, a: Byte, b: Byte)
    requires h <= 1
    ensures Initial(Boot(h, a, b))
  {}

  lemma Injective(k: Card, key: nat, a: Byte, b: Byte)
    requires k.Good() && k.enc(key, [a]) == k.enc(key, [b])
    ensures a == b
  {
    assert k.dec(key, k.enc(key, [a])) == [a] && k.dec(key, k.enc(key, [b])) == [b];
    assert [a][0] == [b][0];
  }

  /**
   * Two calls in flight on one handle share one `struct job`: with no other disturbance, the
   * first writer's successful call hands it the cipher of the other's byte.
   */
  lemma SharedHandle(k: Card, a: Byte, b: Byte) returns (s: State)
    requires k.Good() && k.alive && a != b
    ensures Initial(Boot(0, a, b)) && Reaches(k, ORDERLY, Boot(0, a, b), s)
    ensures |s.clients| == 2 && s.clients[0].pc.Idle? && s.clients[0].l.ret == 0
    ensures s.clients[0].user == k.enc(0, [b]) != k.enc(0, [a])
  {
    BootIsInitial(0, a, b);
    var s0 := Boot(0, a, b);
    Enter(k, ORDERLY, s0, 0);
    var s1 := Store(s0, 0, Entered(k, Look(s0, 0)));
    Enter(k, ORDERLY, s1, 1);
    var s2 := Store(s1, 1, Entered(k, Look(s1, 1)));
    Then(k, ORDERLY, s0, s1, s2);
    var v := Look(s2, 0);
    var vs := ToStatus(k, v);
    Goes(k, ORDERLY, s0, s2, 0, vs);
    var s3 := Store(s2, 0, AtStatus(v));
    assert Look(s3, 0) == AtStatus(v) && Kernel(v.g, v.j) == [b];
    assert Take(Blit(Zeros(WINDOW), 0, [b]), 1) == [b];
    s := Finishes(k, ORDERLY, s0, s3, 0, [b]);
    if k.enc(0, [b]) == k.enc(0, [a]) { Injective(k, 0, a, b); }
  }

  /**
   * A store through a mapping while an unmapped caller's byte is in the window: the call
   * succeeds and returns the cipher of the stored byte.
   */
  lemma StoreIntoWindow(k: Card, a: Byte, x: Byte) returns (s: State)
    requires k.Good() && k.alive && a != x
    ensures Initial(Boot(1, a, 0)) && Reaches(k, POKES, Boot(1, a, 0), s)
    ensures |s.clients| == 2 && s.clients[0].pc.Idle? && s.clients[0].l.ret == 0
    ensures s.clients[0].user == k.enc(0, [x]) != k.enc(0, [a])
  {
    var r := POKES;
    BootIsInitial(1, a, 0);
    var s0 := Boot(1, a, 0);
    Enter(k, r, s0, 0);
    var s1 := Store(s0, 0, Entered(k, Look(s0, 0)));
    var v := Look(s1, 0);
    var vs := ToStatus(k, v);
    Goes(k, r, s0, s1, 0, vs);
    var s2 := Store(s1, 0, AtStatus(v));
    assert Look(s2, 0) == AtStatus(v) && |s2.g.dev.window| == WINDOW;
    Act(k, r, s0, s2, Hardware(Poke(0, x)));
    var s3 := s2.(g := s2.g.(dev := s2.g.dev.(window := s2.g.dev.window[0 := x])));
    assert Take(s3.g.dev.window, 1) == [x];
    s := Finishes(k, r, s0, s3, 0, [x]);
    if k.enc(0, [x]) == k.enc(0, [a]) { Injective(k, 0, a, x); }
  }

  // ----- a mapped caller -----

  /** An encryption of the window's first byte has been called, and has come to the liveness probe. */
  function MappedProbe(v: View): View {
    View(v.c.(pc := Pre(ProbeWrite), l := Loop(true, true, 0, 1, 0, v.c.l.ret)),
         v.j.(isE := true, isNotMM := false), v.g)
  }

  function MappedCall(v: View): View { UserStep(v, Call(true, true, 1)) }

  lemma ToMappedProbe(k: Card, v: View) returns (vs: seq<View>)
    requires v.j.isM
    ensures |vs| > 0 && vs[0] == MappedCall(v) && vs[|vs| - 1] == MappedProbe(v) && Chain(k, vs)
  {
    var v0 := MappedCall(v);
    var v1 := View(v0.c.(pc := Lib(IoMmap)), v.j.(isE := true), v.g);
    var v2 := View(v0.c.(pc := Lib(LoopTop)), v1.j.(isNotMM := false), v.g);
    var v3 := v2.(c := MappedProbe(v).c.(pc := Pre(Entry)));
    assert LocalStep(k, v0, Ok) == v1;
    assert LocalStep(k, v1, Ok) == v2;
    assert LocalStep(k, v2, Ok) == v3;
    assert LocalStep(k, v3, Ok) == MappedProbe(v);
    vs := [v0, v1, v2, v3, MappedProbe(v)];
  }

  /** Down, keys and length; there is no message to bring. */
  function MappedStatus(v: View): View {
    View(v.c.(pc := Mmio(MStatus), err := -1, downs := v.c.downs + 1), v.j.(len := v.c.l.len),
         v.g.(sem := v.g.sem - 1, dev := v.g.dev.(keys := v.j.keyab, lenMsg := v.c.l.len)))
  }

  lemma ToMappedStatus(k: Card, v: View) returns (vs: seq<View>)
    requires v.c.pc == Pre(Alloc) && v.j.isM && !v.j.isNotMM && v.g.sem > 0
    ensures |vs| > 0 && vs[0] == v && vs[|vs| - 1] == MappedStatus(v) && Chain(k, vs)
  {
    var v1 := View(v.c.(pc := Pre(Down)), v.j.(len := v.c.l.len), v.g);
    var c, g := MappedStatus(v).c, v.g.(sem := v.g.sem - 1);
    var v2 := View(c.(pc := Mmio(LoadKey)), v1.j, g);
    var v3 := View(c.(pc := Mmio(MLen)), v1.j, g.(dev := g.dev.(keys := v.j.keyab)));
    assert LocalStep(k, v, Ok) == v1;
    assert LocalStep(k, v1, Ok) == v2;
    assert LocalStep(k, v2, Ok) == v3;
    assert LocalStep(k, v3, Ok) == MappedStatus(v);
    vs := [v, v1, v2, v3, MappedStatus(v)];
  }

  lemma MappedProbes(k: Card, s0: State) returns (s: State)
    requires WellFormed(s0) && 0 < |s0.clients| && s0.clients[0].pc.Idle? && Look(s0, 0).j.isM
    ensures Reaches(k, POKES, s0, s) && s == Store(s0, 0, MappedProbe(Look(s0, 0)))
  {
    var v := Look(s0, 0);
    Step(k, POKES, s0, User(0, Call(true, true, 1)));
    var s1 := Store(s0, 0, MappedCall(v));
    assert Look(s1, 0) == MappedCall(v);
    var vs := ToMappedProbe(k, v);
    Goes(k, POKES, s0, s1, 0, vs);
    s := Store(s1, 0, MappedProbe(v));
    assert s == Store(s0, 0, MappedProbe(v));
  }

  lemma MappedEnters(k: Card, s0: State) returns (s: State)
    requires k.alive && WellFormed(s0) && 0 < |s0.clients| && s0.clients[0].pc.Idle?
    requires Look(s0, 0).j.isM && s0.g.sem > 0
    ensures Reaches(k, POKES, s0, s) && s == Store(s0, 0, MappedStatus(AtAlloc(k, MappedProbe(Look(s0, 0)))))
  {
    var v := MappedProbe(Look(s0, 0));
    var s1 := MappedProbes(k, s0);
    assert Look(s1, 0) == v;
    var vs := ToAlloc(k, v);
    Goes(k, POKES, s0, s1, 0, vs);
    var u := AtAlloc(k, v);
    var s2 := Store(s1, 0, u);
    assert Look(s2, 0) == u;
    vs := ToMappedStatus(k, u);
    Goes(k, POKES, s0, s2, 0, vs);
    s := Store(s2, 0, MappedStatus(u));
    assert s == Store(s0, 0, MappedStatus(u));
  }

  /** From the written status on: the card makes its pass, and the call returns. */
  lemma MappedFinishes(k: Card, s0: State, s: State, m: seq<Byte>) returns (s': State)
    requires k.Good() && Reaches(k, POKES, s0, s) && WellFormed(s) && 0 < |s.clients|
    requires var v := Look(s, 0);
      && v.c.pc == Mmio(MStatus) && v.j.isE && v.j.isM && !v.j.isNotMM && !v.j.isI && v.c.l.rem == 0
      && v.g.dev.keys == 0 && v.g.dev.lenMsg == |m| <= |v.g.dev.window| && Take(v.g.dev.window, |m|) == m
    ensures Reaches(k, POKES, s0, s') && 0 < |s'.clients| && s'.clients[0].pc.Idle? && s'.clients[0].l.ret == 0
    ensures |s'.g.dev.window| == |s.g.dev.window| && Take(s'.g.dev.window, |m|) == k.enc(0, m)
  {
    var v := Look(s, 0);
    var w := AtStart(v);
    var vs := ToStart(k, v);
    Goes(k, POKES, s0, s, 0, vs);
    var s1 := Store(s, 0, w);
    assert |k.enc(0, m)| == |m|;
    CardWorks(k, POKES, s1, false);
    var s2 := s1.(g := Worked(k, w.g, false));
    Then(k, POKES, s0, s1, s2);
    var u := w.(g := s2.g);
    assert Look(s2, 0) == u && Ready(u.g.dev, true);
    var up := u.(c := u.c.(pc := Up(true)));
    assert LocalStep(k, u, Ok) == up;
    Goes(k, POKES, s0, s2, 0, [u, up]);
    var s3 := Store(s2, 0, up);
    assert Look(s3, 0) == up;
    vs := ToReturn(k, up);
    Goes(k, POKES, s0, s3, 0, vs);
    s' := Store(s3, 0, AtReturn(up));
  }

  /**
   * A store through another mapping in the course of a mapped call: the call succeeds, and leaves
   * in the window the cipher of the stored byte and not of the one it was called on.
   */
  lemma StoreUnderMapped(k: Card, x: Byte) returns (s: State)
    requires k.Good() && k.alive && x != 0
    ensures Initial(Boot(1, 0, 0)) && Reaches(k, POKES, Boot(1, 0, 0), s)
    ensures |s.clients| > 0 && s.clients[0].pc.Idle? && s.clients[0].l.ret == 0 && |s.g.dev.window| == WINDOW
    ensures Take(Boot(1, 0, 0).g.dev.window, 1) == [0]
    ensures Take(s.g.dev.window, 1) == k.enc(0, [x]) != k.enc(0, [0])
  {
    BootIsInitial(1, 0, 0);
    var s0 := Boot(1, 0, 0);
    var s1 := MappedEnters(k, s0);
    assert s1.g.dev.window == Zeros(WINDOW) && Zeros(WINDOW)[0] == 0;
    Act(k, POKES, s0, s1, Hardware(Poke(0, x)));
    var s2 := s1.(g := s1.g.(dev := s1.g.dev.(window := s1.g.dev.window[0 := x])));
    assert Take(s2.g.dev.window, 1) == [x];
    assert Look(s2, 0) == Look(s1, 0).(g := s2.g);
    s := MappedFinishes(k, s0, s2, [x]);
    if k.enc(0, [x]) == k.enc(0, [0]) { Injective(k, 0, 0, x); }
  }

  // ----- interrupted waits -----

  const SIGNALS := Rules(true, false, false, false)

  /** Besides, freed memory may be handed out again under an operation of the card. */
  const REUSE := Rules(true, false, false, true)

  /** A signal during the wait: the driver ups, frees and returns -ERESTARTSYS. */
  function AtSignal(v: View): View {
    View(v.c.(pc := Idle, err := ERESTARTSYS, queued := false, ups := v.c.ups + 1, l := v.c.l.(ret := -1)),
         v.j.(msg := None), Released(v.g.(sem := v.g.sem + 1), v.j))
  }

  lemma Cancelled(k: Card, r: Rules, s0: State, s: State, t: nat) returns (s': State)
    requires r.signals && Reaches(k, r, s0, s) && WellFormed(s) && t < |s.clients|
    requires s.clients[t].pc == Wait(Check) && !Ready(s.g.dev, Look(s, t).j.isM)
    ensures s' == Store(s, t, AtSignal(Look(s, t))) && Reaches(k, r, s0, s')
  {
    var v := Look(s, t);
    var v1 := v.(c := v.c.(pc := Up(false), err := ERESTARTSYS, queued := false));
    assert LocalStep(k, v, Signal) == v1;
    Act(k, r, s0, s, Thread(t, Signal));
    var s1 := Store(s, t, v1);
    assert Look(s1, t) == v1;
    var v2 := View(v1.c.(pc := Free(false), ups := v.c.ups + 1), v.j, v.g.(sem := v.g.sem + 1));
    assert LocalStep(k, v1, Ok) == v2;
    assert LocalStep(k, v2, Ok) == AtSignal(v);
    var vs := [v1, v2, AtSignal(v)];
    Goes(k, r, s0, s1, t, vs);
    s' := Store(s1, t, AtSignal(v));
    assert s' == Store(s, t, AtSignal(v));
  }

  lemma Configure(k: Card, r: Rules, s0: State, s: State, t: nat, kind: Ioctl.Kind) returns (s': State)
    requires Reaches(k, r, s0, s) && WellFormed(s)
    requires t < |s.clients| && s.clients[t].pc.Idle? && s.clients[t].l.ret == 0
    ensures Reaches(k, r, s0, s')
    ensures var j := Look(s, t).j;
      s' == Store(s, t, Look(s, t).(j := if kind.Dma? then j.(isM := false) else j.(isI := true)))
  {
    s' := Next(k, s, User(t, SetConfig(kind, 1, true)));
    Act(k, r, s0, s, User(t, SetConfig(kind, 1, true)));
    assert s.clients[t].l.(ret := 0) == s.clients[t].l;
  }

  lemma Enters(k: Card, r: Rules, s0: State, s: State, t: nat) returns (s': State)
    requires Reaches(k, r, s0, s) && k.alive && WellFormed(s) && t < |s.clients|
    requires s.clients[t].pc.Idle? && 0 < |s.clients[t].user| <= CHUNK
    ensures Reaches(k, r, s0, s') && s' == Store(s, t, Entered(k, Look(s, t)))
  {
    Enter(k, r, s, t);
    s' := Store(s, t, Entered(k, Look(s, t)));
    Then(k, r, s0, s, s');
  }

  /** Down to the second test of a DMA job's wait, the card still busy. */
  lemma DmaWaits(k: Card, r: Rules, s0: State, s: State, t: nat) returns (s': State)
    requires Reaches(k, r, s0, s) && WellFormed(s) && t < |s.clients|
    requires var v := Look(s, t); v.c.pc == Pre(Down) && v.g.sem > 0 && !v.j.isM && v.j.isI && v.j.isE && v.j.msg.Some?
    ensures Reaches(k, r, s0, s') && s' == Store(s, t, AtCheck(AtDma(AtMap(Look(s, t)))))
    ensures !Ready(s'.g.dev, false)
  {
    var v := Look(s, t);
    var vs := ToMap(k, v);
    Goes(k, r, s0, s, t, vs);
    var s1 := Store(s, t, AtMap(v));
    assert Look(s1, t) == AtMap(v);
    vs := ToDma(k, AtMap(v));
    Goes(k, r, s0, s1, t, vs);
    var s2 := Store(s1, t, AtDma(AtMap(v)));
    assert Look(s2, t) == AtDma(AtMap(v));
    vs := ToCheck(k, AtDma(AtMap(v)));
    Goes(k, r, s0, s2, t, vs);
    s' := Store(s2, t, AtCheck(AtDma(AtMap(v))));
    assert s' == Store(s, t, AtCheck(AtDma(AtMap(v))));
  }

  /** Client 0 of `Boot` at the semaphore, with interrupts on. */
  function Waiter(k: Card, isM: bool, a: Byte): View {
    View(Newcomer(0, [a]).(pc := Pre(Down), l := Loop(true, false, 0, 1, 0, 0)),
         Job(true, isM, true, true, 1, Some(0), 0),
         EMPTY.(heap := map[0 := [a]], nextBuf := 1, dev := REST.(live := Answer(k, LIVE_PROBE))))
  }

  /** The handle is configured for interrupts, and for DMA unless `isM`. */
  lemma SetUp(k: Card, r: Rules, s0: State, s: State, t: nat, isM: bool) returns (s': State)
    requires Reaches(k, r, s0, s) && WellFormed(s)
    requires t < |s.clients| && s.clients[t].pc.Idle? && s.clients[t].l.ret == 0
    requires Look(s, t).j == OPENED
    ensures Reaches(k, r, s0, s') && s' == Store(s, t, Look(s, t).(j := OPENED.(isI := true, isM := isM)))
  {
    s' := Configure(k, r, s0, s, t, Ioctl.Interrupt);
    if !isM { s' := Configure(k, r, s0, s', t, Ioctl.Dma); }
  }

  lemma WaiterEnters(k: Card, r: Rules, isM: bool, a: Byte, b: Byte) returns (s: State)
    requires k.alive
    ensures Reaches(k, r, Boot(1, a, b), s) && s == Store(Boot(1, a, b), 0, Waiter(k, isM, a))
  {
    var s0 := Boot(1, a, b);
    Here(k, r, s0);
    s := SetUp(k, r, s0, s0, 0, isM);
    s := Enters(k, r, s0, s, 0);
    assert s == Store(s0, 0, Waiter(k, isM, a));
  }

  /** Client 0 of `Boot` waiting for its DMA operation. */
  function Mid(k: Card, a: Byte): View { AtCheck(AtDma(AtMap(Waiter(k, false, a)))) }

  lemma MidWait(k: Card, r: Rules, a: Byte, b: Byte) returns (s: State)
    requires k.alive
    ensures Reaches(k, r, Boot(1, a, b), s) && s == Store(Boot(1, a, b), 0, Mid(k, a)) && !Ready(s.g.dev, false)
  {
    var s1 := WaiterEnters(k, r, false, a, b);
    assert Look(s1, 0) == Waiter(k, false, a);
    s := DmaWaits(k, r, Boot(1, a, b), s1, 0);
  }

  /** The card at work for client 0. */
  function MidDev(k: Card): Device {
    REST.(live := Answer(k, LIVE_PROBE), dlen := 1, cmd := 5, dma := Some(Op(true, 0, 1, true, 0, false)))
  }

  lemma MidFacts(k: Card, a: Byte)
    ensures var v := Mid(k, a);
      && v.c.pc == Wait(Check) && !v.j.isM && v.c.h == 0
      && v.j.isNotMM && v.j.msg == Some(0) && v.g.heap.Keys == {0} && v.g.freed == [] && v.g.mapped == {0}
      && v.g.sem == 0 && v.g.nextBuf == 1 && v.g.dev == MidDev(k)
  {}

  /** Client 0's wait has been cut short, client 1 has not started. */
  ghost predicate Abandoned(k: Card, b: Byte, s: State) {
    && WellFormed(s) && |s.clients| == |s.jobs| == 2
    && s.clients[0].h == 0 && s.clients[0].pc.Idle? && s.clients[0].l.ret == -1
    && s.clients[1] == Newcomer(1, [b]) && s.jobs[1] == OPENED
    && s.g == Shared(map[], 1, [0], {0}, 1, MidDev(k))
  }

  lemma AbandonsDma(k: Card, r: Rules, a: Byte, b: Byte) returns (s: State)
    requires r.signals && k.alive
    ensures Reaches(k, r, Boot(1, a, b), s) && Abandoned(k, b, s)
  {
    var s1 := MidWait(k, r, a, b);
    assert Look(s1, 0) == Mid(k, a);
    MidFacts(k, a);
    s := Cancelled(k, r, Boot(1, a, b), s1, 0);
    assert s.g.heap == map[];
  }

  /**
   * An interrupted DMA wait: every call has returned and the semaphore is free, yet the card is
   * busy on a buffer that has been freed and is still mapped for DMA.
   */
  lemma InterruptedDma(k: Card, a: Byte) returns (s: State)
    requires k.Good() && k.alive
    ensures Initial(Boot(1, a, 0)) && Reaches(k, SIGNALS, Boot(1, a, 0), s)
    ensures |s.clients| == 2 && s.clients[0].pc.Idle? && s.clients[1].pc.Idle? && s.clients[0].l.ret == -1
    ensures s.g.sem == 1 && s.g.dev.dma.Some? && !Ready(s.g.dev, false)
    ensures s.g.dev.dma.value.buf == 0 && s.g.mapped == {0} && s.g.freed == [0] && 0 !in s.g.heap
  {
    BootIsInitial(1, a, 0);
    s := AbandonsDma(k, SIGNALS, a, 0);
  }

  /** Down to the started operation of a memory-mapped job. */
  lemma MmioStarts(k: Card, r: Rules, s0: State, s: State, t: nat) returns (s': State)
    requires Reaches(k, r, s0, s) && WellFormed(s) && t < |s.clients|
    requires var v := Look(s, t); v.c.pc == Pre(Down) && v.g.sem > 0 && v.j.isM && v.j.isNotMM
    ensures Reaches(k, r, s0, s') && s' == Store(s, t, AtStart(AtStatus(Look(s, t))))
  {
    var v := Look(s, t);
    var vs := ToStatus(k, v);
    Goes(k, r, s0, s, t, vs);
    var s1 := Store(s, t, AtStatus(v));
    assert Look(s1, t) == AtStatus(v);
    vs := ToStart(k, AtStatus(v));
    Goes(k, r, s0, s1, t, vs);
    s' := Store(s1, t, AtStart(AtStatus(v)));
    assert s' == Store(s, t, AtStart(AtStatus(v)));
  }

  /** On to the second test of its wait, the card still busy. */
  lemma MmioWaits(k: Card, r: Rules, s0: State, s: State, t: nat) returns (s': State)
    requires Reaches(k, r, s0, s) && WellFormed(s) && t < |s.clients|
    requires var v := Look(s, t); v.c.pc == Pre(Down) && v.g.sem > 0 && v.j.isM && v.j.isNotMM && v.j.isI
    ensures Reaches(k, r, s0, s') && s' == Store(s, t, AtCheck(AtStart(AtStatus(Look(s, t)))))
    ensures !Ready(s'.g.dev, true)
  {
    var v := AtStart(AtStatus(Look(s, t)));
    var s1 := MmioStarts(k, r, s0, s, t);
    assert Look(s1, t) == v;
    var vs := ToCheck(k, v);
    Goes(k, r, s0, s1, t, vs);
    s' := Store(s1, t, AtCheck(v));
    assert s' == Store(s, t, AtCheck(v));
  }

  /** A memory-mapped job's wait is interrupted while the card still works on the window. */
  lemma Abandons(k: Card, s0: State, s: State, t: nat) returns (s': State)
    requires Reaches(k, SIGNALS, s0, s) && WellFormed(s) && t < |s.clients|
    requires var v := Look(s, t);
      v.c.pc == Pre(Down) && v.g.sem == 1 && v.j.isM && v.j.isNotMM && v.j.isI && v.j.msg == Some(0)
    ensures Reaches(k, SIGNALS, s0, s') && WellFormed(s') && |s'.clients| == |s.clients| && |s'.jobs| == |s.jobs|
    ensures forall u :: 0 <= u < |s.clients| && u != t ==> s'.clients[u] == s.clients[u]
    ensures forall h :: 0 <= h < |s.jobs| && h != s.clients[t].h ==> s'.jobs[h] == s.jobs[h]
    ensures s'.g.sem == 1 && s'.g.heap == s.g.heap - {0} && s'.g.nextBuf == s.g.nextBuf
    ensures |s'.g.dev.window| == |s.g.dev.window|
    ensures var j := Look(s, t).j; s'.g.dev.mmio == Some(Op(j.isE, j.keyab, j.len, true, 0, false))
  {
    var v := AtCheck(AtStart(AtStatus(Look(s, t))));
    var s1 := MmioWaits(k, SIGNALS, s0, s, t);
    assert Look(s1, t) == v;
    s' := Cancelled(k, SIGNALS, s0, s1, t);
  }

  /** Client 0 at the semaphore, client 1 not started. */
  lemma WaiterFacts(k: Card, a: Byte, b: Byte, s: State)
    requires s == Store(Boot(1, a, b), 0, Waiter(k, true, a))
    ensures WellFormed(s) && |s.clients| == |s.jobs| == 2 && s.clients[1] == Newcomer(1, [b]) && s.jobs[1] == OPENED
    ensures s.clients[0].h == 0 && s.g.heap.Keys == {0} && s.g.nextBuf == 1 && |s.g.dev.window| == WINDOW
    ensures var v := Look(s, 0);
      && v.c.pc == Pre(Down) && v.g.sem == 1 && v.j.isE && v.j.isM && v.j.isNotMM && v.j.isI
      && v.j.msg == Some(0) && v.j.keyab == 0 && v.j.len == 1
  {
    assert Look(s, 0) == Waiter(k, true, a);
  }

  lemma InterruptedMmio(k: Card, a: Byte, b: Byte) returns (s: State)
    requires k.Good() && k.alive
    ensures Reaches(k, SIGNALS, Boot(1, a, b), s) && WellFormed(s) && |s.clients| == |s.jobs| == 2
    ensures s.clients[1] == Newcomer(1, [b]) && s.jobs[1] == OPENED
    ensures s.g.sem == 1 && s.g.heap == map[] && s.g.nextBuf == 1 && |s.g.dev.window| == WINDOW
    ensures s.g.dev.mmio == Some(Op(true, 0, 1, true, 0, false))
  {
    var s1 := WaiterEnters(k, SIGNALS, true, a, b);
    WaiterFacts(k, a, b, s1);
    s := Abandons(k, Boot(1, a, b), s1, 0);
  }

  lemma EncipheredTwice(k: Card, b: Byte)
    requires k.Good() && k.enc(0, [b]) != [b]
    ensures k.enc(0, k.enc(0, [b])) != k.enc(0, [b])
  {
    assert k.dec(0, k.enc(0, k.enc(0, [b]))) == k.enc(0, [b]) && k.dec(0, k.enc(0, [b])) == [b];
  }

  /** The next caller brings its byte into the window while the forgotten operation still runs. */
  lemma LoadsOver(k: Card, s0: State, s: State, b: Byte) returns (s': State)
    requires k.alive && Reaches(k, SIGNALS, s0, s) && WellFormed(s) && |s.clients| == |s.jobs| == 2
    requires s.clients[1] == Newcomer(1, [b]) && s.jobs[1] == OPENED
    requires s.g.sem == 1 && s.g.heap == map[] && s.g.nextBuf == 1 && |s.g.dev.window| == WINDOW
    ensures Reaches(k, SIGNALS, s0, s') && WellFormed(s') && |s'.clients| == 2 && s'.g.dev.mmio == s.g.dev.mmio
    ensures Loaded(Look(s', 1), [b]) && s'.jobs[s'.clients[1].h].keyab == 0
  {
    var s1 := Enters(k, SIGNALS, s0, s, 1);
    var v := Look(s1, 1);
    var vs := ToStatus(k, v);
    Goes(k, SIGNALS, s0, s1, 1, vs);
    s' := Store(s1, 1, AtStatus(v));
    assert Look(s', 1) == AtStatus(v);
    assert Take(s'.g.dev.window, 1) == [b];
  }

  /** The forgotten operation runs over it, and the caller's own operation enciphers the result. */
  lemma Overrun(k: Card, s0: State, s: State, b: Byte) returns (s': State)
    requires k.Good() && Reaches(k, SIGNALS, s0, s) && WellFormed(s) && |s.clients| == 2
    requires Loaded(Look(s, 1), [b]) && Look(s, 1).j.keyab == 0 && s.g.dev.mmio == Some(Op(true, 0, 1, true, 0, false))
    ensures Reaches(k, SIGNALS, s0, s') && |s'.clients| == 2 && s'.clients[1].pc.Idle? && s'.clients[1].l.ret == 0
    ensures s'.clients[1].user == k.enc(0, k.enc(0, [b]))
  {
    Act(k, SIGNALS, s0, s, Hardware(Transform(false)));
    var s1 := s.(g := TransformStep(k, s.g, false));
    assert |k.enc(0, [b])| == 1;
    assert Take(s1.g.dev.window, 1) == k.enc(0, [b]);
    assert Loaded(Look(s1, 1), k.enc(0, [b]));
    s' := Finishes(k, SIGNALS, s0, s1, 1, k.enc(0, [b]));
  }

  /**
   * The next caller pays: the forgotten operation runs over its byte, and its own successful
   * call hands back a byte enciphered twice.
   */
  lemma InterruptedWait(k: Card, a: Byte, b: Byte) returns (s: State)
    requires k.Good() && k.alive && k.enc(0, [b]) != [b]
    ensures Initial(Boot(1, a, b)) && Reaches(k, SIGNALS, Boot(1, a, b), s)
    ensures |s.clients| == 2 && s.clients[1].pc.Idle? && s.clients[1].l.ret == 0
    ensures s.clients[1].user == k.enc(0, k.enc(0, [b])) != k.enc(0, [b])
  {
    BootIsInitial(1, a, b);
    var s0 := Boot(1, a, b);
    var s1 := InterruptedMmio(k, a, b);
    var s2 := LoadsOver(k, s0, s1, b);
    s := Overrun(k, s0, s2, b);
    EncipheredTwice(k, b);
  }

  // ----- memory handed out again -----

  /** The next caller, at its allocation. */
  function AtCall(k: Card, b: Byte): View {
    AtAlloc(k, AtProbe(EnterCall(View(Newcomer(1, [b]), OPENED, Shared(map[], 1, [0], {0}, 1, MidDev(k))))))
  }

  lemma AllocatesNext(k: Card, s0: State, s: State, b: Byte) returns (s': State)
    requires k.alive && Reaches(k, REUSE, s0, s) && Abandoned(k, b, s)
    ensures Reaches(k, REUSE, s0, s') && s' == Store(s, 1, AtCall(k, b))
  {
    EnterProbe(k, REUSE, s, 1);
    var v := AtProbe(EnterCall(Look(s, 1)));
    var s1 := Store(s, 1, v);
    Then(k, REUSE, s0, s, s1);
    assert Look(s1, 1) == v;
    var vs := ToAlloc(k, v);
    Goes(k, REUSE, s0, s1, 1, vs);
    s' := Store(s1, 1, AtAlloc(k, v));
    assert s' == Store(s, 1, AtCall(k, b));
  }

  /** It is given the memory the card still works on, and its byte is copied in. */
  function AtInherited(k: Card, b: Byte): View {
    var v := AtCall(k, b);
    AtDown(k, v.(g := v.g.(dev := Inherited(v.g))))
  }

  lemma Inherits(k: Card, s0: State, s: State, b: Byte) returns (s': State)
    requires Reaches(k, REUSE, s0, s) && WellFormed(s) && |s.clients| == |s.jobs| == 2 && Look(s, 1) == AtCall(k, b)
    ensures Reaches(k, REUSE, s0, s') && s' == Store(s, 1, AtInherited(k, b))
  {
    var v := AtCall(k, b);
    var u := v.(g := v.g.(dev := Inherited(v.g)));
    assert LocalStep(k, v, Reuse) == AtCopy(k, u);
    Act(k, REUSE, s0, s, Thread(1, Reuse));
    var s1 := Store(s, 1, AtCopy(k, u));
    assert Look(s1, 1) == AtCopy(k, u);
    CopyStep(k, u);
    var vs := [AtCopy(k, u), AtDown(k, u)];
    Goes(k, REUSE, s0, s1, 1, vs);
    s' := Store(s1, 1, AtDown(k, u));
    assert s' == Store(s, 1, AtDown(k, u));
  }

  lemma InheritedFacts(k: Card, b: Byte)
    ensures var v := AtInherited(k, b);
      && v.c.pc == Pre(Down) && v.c.h == 1 && v.c.user == [b] && v.c.l == Loop(true, false, 0, 1, 0, 0)
      && v.j == Job(true, true, false, true, 1, Some(1), 0)
      && v.g.heap == map[1 := [b]] && v.g.sem == 1 && v.g.dev.window == Zeros(WINDOW)
      && v.g.dev.dma == Some(Op(true, 0, 1, true, 1, false))
  {}

  /** The forgotten operation runs over the byte in the kernel buffer. */
  function AtRunOver(k: Card, b: Byte): View {
    var v := AtInherited(k, b);
    v.(g := TransformStep(k, v.g, true))
  }

  lemma RunOverFacts(k: Card, b: Byte)
    requires k.Good()
    ensures Loaded(AtStatus(AtRunOver(k, b)), k.enc(0, [b])) && AtRunOver(k, b).j.keyab == 0
  {
    InheritedFacts(k, b);
    var m := k.enc(0, [b]);
    assert |m| == 1 && Take([b], 1) == [b] && Blit([b], 0, m) == m;
    assert Kernel(AtRunOver(k, b).g, AtRunOver(k, b).j) == m;
    assert Take(Blit(Zeros(WINDOW), 0, m), 1) == m;
  }

  /** Down to the loaded window. */
  lemma LoadsInherited(k: Card, s0: State, s: State, b: Byte) returns (s': State)
    requires k.Good() && Reaches(k, REUSE, s0, s) && WellFormed(s) && |s.clients| == |s.jobs| == 2
    requires s.clients[1].h == 1 && Look(s, 1) == AtInherited(k, b)
    ensures Reaches(k, REUSE, s0, s') && WellFormed(s') && |s'.clients| == 2
    ensures Loaded(Look(s', 1), k.enc(0, [b])) && Look(s', 1).j.keyab == 0
  {
    InheritedFacts(k, b);
    Act(k, REUSE, s0, s, Hardware(Transform(true)));
    var v := AtRunOver(k, b);
    var s1 := s.(g := v.g);
    assert Look(s1, 1) == v;
    RunOverFacts(k, b);
    var vs := ToStatus(k, v);
    Goes(k, REUSE, s0, s1, 1, vs);
    s' := Store(s1, 1, AtStatus(v));
    assert Look(s', 1) == AtStatus(v);
  }

  /**
   * The next caller pays again, though nothing touches its message in the window: it is given
   * the memory an interrupted DMA wait has left to the card, and its own successful call by
   * memory-mapped I/O hands back a byte enciphered twice.
   */
  lemma InheritedMemory(k: Card, a: Byte, b: Byte) returns (s: State)
    requires k.Good() && k.alive && k.enc(0, [b]) != [b]
    ensures Initial(Boot(1, a, b)) && Reaches(k, REUSE, Boot(1, a, b), s)
    ensures |s.clients| == 2 && s.clients[1].pc.Idle? && s.clients[1].l.ret == 0
    ensures s.clients[1].user == k.enc(0, k.enc(0, [b])) != k.enc(0, [b])
  {
    BootIsInitial(1, a, b);
    var s0 := Boot(1, a, b);
    var s1 := AbandonsDma(k, REUSE, a, b);
    var s2 := AllocatesNext(k, s0, s1, b);
    assert Look(s2, 1) == AtCall(k, b);
    var s3 := Inherits(k, s0, s2, b);
    InheritedFacts(k, b);
    var s4 := LoadsInherited(k, s0, s3, b);
    s := Finishes(k, REUSE, s0, s4, 1, k.enc(0, [b]));
    EncipheredTwice(k, b);
  }

  // ----- lost wake-ups -----

  lemma ReachesKeepsSem(k: Card, r: Rules, s: State, s': State)
    requires Initial(s) && Reaches(k, r, s, s')
    ensures SemOk(s')
  {
    assert forall t :: 0 <= t < |s.clients| ==> !Inside(s, t);
    ComesKeepsSem(k, s, s', Within(r));
  }

  /** The card is busy with one operation, in mode `isM`, that will raise an interrupt. */
  predicate Engaged(d: Device, isM: bool) {
    && !Ready(d, isM) && OpIn(d, isM) && !OpIn(d, !isM) && d.owed == 0
    && var op := if isM then d.mmio.value else d.dma.value; !op.done && op.irq
  }

  lemma DoneBits(isM: bool)
    ensures 0 | DoneBit(isM) == DoneBit(isM) != 0
  {}

  lemma WorkedFacts(k: Card, g: Shared, isM: bool)
    requires Engaged(g.dev, isM)
    ensures CardEnabled(g.dev, Transform(!isM))
    ensures var d := Worked(k, g, !isM).dev;
      d.owed == 0 | DoneBit(isM) && d.mmio.None? && d.dma.None? && d.istatus == g.dev.istatus
  {}

  lemma RaisedFacts(k: Card, g: Shared, isM: bool)
    requires Engaged(g.dev, isM)
    ensures CardEnabled(g.dev, Transform(!isM))
    ensures var g' := Worked(k, g, !isM); var d := RaiseStep(g'.dev);
      && g'.dev.owed != 0 && d.mmio.None? && d.dma.None? && d.owed == 0
      && d.istatus == g.dev.istatus | DoneBit(isM)
  {
    WorkedFacts(k, g, isM);
    DoneBits(isM);
  }

  lemma WorksAndRaises(k: Card, r: Rules, s0: State, s: State, isM: bool) returns (s': State)
    requires Reaches(k, r, s0, s) && WellFormed(s) && CardEnabled(s.g.dev, Transform(!isM))
    requires Worked(k, s.g, !isM).dev.owed != 0
    ensures Reaches(k, r, s0, s')
    ensures s' == s.(g := Worked(k, s.g, !isM).(dev := RaiseStep(Worked(k, s.g, !isM).dev)))
  {
    CardWorks(k, r, s, !isM);
    var s1 := s.(g := Worked(k, s.g, !isM));
    Then(k, r, s0, s, s1);
    Act(k, r, s0, s1, Hardware(Raise));
    s' := s1.(g := s1.g.(dev := RaiseStep(s1.g.dev)));
  }

  /** Asleep on a busy card; the card finishes and raises its interrupt. */
  lemma SleepsAndRaises(k: Card, r: Rules, s0: State, s: State, t: nat) returns (s': State)
    requires Reaches(k, r, s0, s) && WellFormed(s) && t < |s.clients| && s.clients[t].pc == Wait(Check)
    requires Engaged(s.g.dev, Look(s, t).j.isM)
    ensures Reaches(k, r, s0, s') && WellFormed(s')
    ensures s'.clients == s.clients[t := s.clients[t].(pc := Wait(Sleep))] && s'.irq == s.irq
    ensures s'.g.dev.mmio.None? && s'.g.dev.dma.None? && s'.g.dev.owed == 0
    ensures s'.g.dev.istatus == s.g.dev.istatus | DoneBit(Look(s, t).j.isM)
  {
    var v := Look(s, t);
    var v1 := v.(c := v.c.(pc := Wait(Sleep)));
    assert LocalStep(k, v, Ok) == v1;
    var vs := [v, v1];
    Goes(k, r, s0, s, t, vs);
    var s1 := Store(s, t, v1);
    RaisedFacts(k, s.g, v.j.isM);
    s' := WorksAndRaises(k, r, s0, s1, v.j.isM);
  }

  /** Client 1, configured as `j` says, at the semaphore behind client 0. */
  function Second(j: Job): Client { Newcomer(1, [0]).(pc := Pre(Down), l := Loop(true, false, 0, 1, 0, 0)) }
  function SecondJob(j: Job): Job { j.(isE := true, isNotMM := true, len := 1, msg := Some(1)) }

  /** Two clients have come to the semaphore; both use interrupts, the first by MMIO. */
  function Both(k: Card, j: Job): State {
    State([Waiter(k, true, 0).c, Second(j)], [Waiter(k, true, 0).j, SecondJob(j)],
          EMPTY.(heap := map[0 := [0], 1 := [0]], nextBuf := 2, dev := REST.(live := Answer(k, LIVE_PROBE))), Quiet)
  }

  lemma BothEnter(k: Card, r: Rules, dma: bool)
    requires k.alive
    ensures Reaches(k, r, Boot(1, 0, 0), Both(k, OPENED.(isI := true, isM := !dma)))
  {
    var s0 := Boot(1, 0, 0);
    var s := WaiterEnters(k, r, true, 0, 0);
    s := SetUp(k, r, s0, s, 1, !dma);
    s := Enters(k, r, s0, s, 1);
    assert s == Both(k, OPENED.(isI := true, isM := !dma));
  }

  /** The first client is through: the card at rest, its interrupt owed. */
  lemma FirstDone(k: Card, j: Job, s: State)
    requires k.Good() && WellFormed(s) && |s.clients| == |s.jobs| == 2 && Loaded(Look(s, 0), [0])
    requires Look(s, 0) == AtStatus(Look(Both(k, j), 0)) && s.clients[1] == Second(j) && s.jobs[1] == SecondJob(j)
    ensures var v := Look(s, 0);
      var w := AtReturn(AtUser(AtStart(v).(g := Worked(k, AtStart(v).g, false))));
      && w.c.h == 0 && w.c.pc.Idle? && !w.c.queued
      && w.g.sem == 1 && AtRest(w.g.dev) && w.g.dev.owed == 0 | MMIO_DONE && w.g.dev.istatus == 0
  {
    WorkedView(k, Look(s, 0), [0]);
  }

  lemma FirstLoads(k: Card, r: Rules, s0: State, j: Job) returns (s: State)
    requires k.Good() && Reaches(k, r, s0, Both(k, j))
    ensures Reaches(k, r, s0, s) && WellFormed(s) && |s.clients| == |s.jobs| == 2
    ensures Look(s, 0) == AtStatus(Look(Both(k, j), 0)) && Loaded(Look(s, 0), [0])
    ensures s.clients[1] == Second(j) && s.jobs[1] == SecondJob(j) && s.irq.Quiet?
  {
    var s2 := Both(k, j);
    var v := Look(s2, 0);
    var vs := ToStatus(k, v);
    Goes(k, r, s0, s2, 0, vs);
    s := Store(s2, 0, AtStatus(v));
    assert Look(s, 0) == AtStatus(v) && Kernel(v.g, v.j) == [0];
    assert Take(Blit(Zeros(WINDOW), 0, [0]), 1) == [0];
  }

  lemma PendingRaised(k: Card, r: Rules, s0: State, s: State) returns (s': State)
    requires Reaches(k, r, s0, s) && WellFormed(s) && s.g.dev.owed == 0 | MMIO_DONE && s.g.dev.istatus == 0
    ensures Reaches(k, r, s0, s') && s' == s.(g := s.g.(dev := s.g.dev.(owed := 0, istatus := MMIO_DONE)))
  {
    assert 0 | MMIO_DONE == MMIO_DONE != 0;
    Act(k, r, s0, s, Hardware(Raise));
    s' := s.(g := s.g.(dev := RaiseStep(s.g.dev)));
  }

  /** The first client finishes without ever sleeping, and its interrupt is still pending. */
  lemma LeftPending(k: Card, r: Rules, s0: State, j: Job) returns (s: State)
    requires k.Good() && Reaches(k, r, s0, Both(k, j))
    ensures Reaches(k, r, s0, s) && WellFormed(s) && |s.clients| == |s.jobs| == 2
    ensures s.clients[1] == Second(j) && s.jobs[1] == SecondJob(j)
    ensures s.clients[0].pc.Idle? && !s.clients[0].queued && s.irq.Quiet?
    ensures s.g.sem == 1 && AtRest(s.g.dev) && s.g.dev.owed == 0 && s.g.dev.istatus == MMIO_DONE
  {
    var s3 := FirstLoads(k, r, s0, j);
    var s4 := Finishes(k, r, s0, s3, 0, [0]);
    FirstDone(k, j, s3);
    s := PendingRaised(k, r, s0, s4);
  }

  lemma Acknowledged(k: Card, s0: State, s: State) returns (s': State)
    requires Reaches(k, ORDERLY, s0, s) && WellFormed(s) && s.irq.Quiet? && s.g.dev.istatus == MMIO_DONE | DMA_DONE
    ensures Reaches(k, ORDERLY, s0, s')
    ensures s'.clients == s.clients && s'.irq.Quiet? && s'.g.dev == s.g.dev.(istatus := 0)
  {
    assert MMIO_DONE | DMA_DONE != 0 && MMIO_DONE | DMA_DONE != MMIO_DONE && MMIO_DONE | DMA_DONE != DMA_DONE;
    assert (MMIO_DONE | DMA_DONE) & !(MMIO_DONE | DMA_DONE) == 0;
    Act(k, ORDERLY, s0, s, Irq(Atomic));
    s' := IrqStep(s, Atomic);
  }

  /**
   * Two interrupt modes: client 0 finished by MMIO without sleeping, so its interrupt is still
   * pending when client 1's DMA operation finishes. The handler reads 0x101, wakes nobody and
   * acknowledges both. Client 1 sleeps for ever, holding the card.
   */
  lemma MixedModes(k: Card) returns (s: State)
    requires k.Good() && k.alive
    ensures Initial(Boot(1, 0, 0)) && Reaches(k, ORDERLY, Boot(1, 0, 0), s) && Dead(s, 1)
  {
    var s0, j := Boot(1, 0, 0), OPENED.(isI := true, isM := false);
    BootIsInitial(1, 0, 0);
    BothEnter(k, ORDERLY, true);
    var s1 := LeftPending(k, ORDERLY, s0, j);
    var s2 := DmaWaits(k, ORDERLY, s0, s1, 1);
    var s3 := SleepsAndRaises(k, ORDERLY, s0, s2, 1);
    assert s3.g.dev.istatus == MMIO_DONE | DMA_DONE;
    s := Acknowledged(k, s0, s3);
    ReachesKeepsSem(k, ORDERLY, s0, s);
  }

  lemma WokeNobody(k: Card, r: Rules, s0: State, s: State) returns (s': State)
    requires r.splitHandler && Reaches(k, r, s0, s) && WellFormed(s) && s.irq.Quiet? && s.g.dev.istatus == MMIO_DONE
    requires forall t :: 0 <= t < |s.clients| ==> !s.clients[t].queued
    ensures Reaches(k, r, s0, s') && s' == s.(irq := Woke(MMIO_DONE))
  {
    assert MMIO_DONE != 0;
    Act(k, r, s0, s, Irq(Read));
    var s1 := s.(irq := Seen(MMIO_DONE));
    Act(k, r, s0, s1, Irq(Wake));
    s' := IrqWakeStep(s1);
    assert WakeAll(s.clients) == s.clients;
  }

  /**
   * A handler stopped between its wake-up and its acknowledgement: client 1's operation
   * finishes in between, its interrupt merges with the old one and is acknowledged with it.
   */
  lemma SplitHandler(k: Card) returns (s: State)
    requires k.Good() && k.alive
    ensures Initial(Boot(1, 0, 0)) && Reaches(k, Rules(false, false, true, false), Boot(1, 0, 0), s) && Dead(s, 1)
  {
    var s0, j, r := Boot(1, 0, 0), OPENED.(isI := true), Rules(false, false, true, false);
    BootIsInitial(1, 0, 0);
    BothEnter(k, r, false);
    var s1 := LeftPending(k, r, s0, j);
    var s2 := WokeNobody(k, r, s0, s1);
    var s3 := MmioWaits(k, r, s0, s2, 1);
    var s4 := SleepsAndRaises(k, r, s0, s3, 1);
    assert MMIO_DONE | MMIO_DONE == MMIO_DONE && MMIO_DONE & !MMIO_DONE == 0;
    Act(k, r, s0, s4, Irq(Ack));
    s := IrqAckStep(s4);
    ReachesKeepsSem(k, r, s0, s);
  }
}
