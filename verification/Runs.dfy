/** Building runs of the driver, event by event, from the milestones of one client and of the card. */
module Runs {
  import opened Types
  import opened Machine
  import opened Paths
  import opened Semaphore
  import Probe

  // ----- building runs -----

  /** What a run is allowed to contain besides ordinary events. */
  datatype Rules = Rules(signals: bool, pokes: bool, splitHandler: bool, reuse: bool)

  const ORDERLY := Rules(false, false, false, false)

  predicate Allowed(r: Rules, e: Event) {
    && (e.Thread? && e.ch.Signal? ==> r.signals)
    && (e.Hardware? && e.e.Poke? ==> r.pokes)
    && (e.Irq? && !e.i.Atomic? ==> r.splitHandler)
    && (e.Thread? && e.ch.Reuse? ==> r.reuse)
  }

  function Within(r: Rules): (State, Event) -> bool { (s: State, e: Event) => Allowed(r, e) }

  /** `s'` is reachable from `s` by allowed events. */
  ghost predicate Reaches(k: Card, r: Rules, s: State, s': State) { Comes(k, s, s', Within(r)) }

  lemma Then(k: Card, r: Rules, s: State, s1: State, s2: State)
    requires Reaches(k, r, s, s1) && Reaches(k, r, s1, s2)
    ensures Reaches(k, r, s, s2)
  {
    Paths.Then(k, s, s1, s2, Within(r));
  }

  lemma Step(k: Card, r: Rules, s: State, e: Event)
    requires Enabled(s, e) && Allowed(r, e)
    ensures Reaches(k, r, s, Next(k, s, e))
  {
    OneEvent(k, s, e, Within(r));
  }

  lemma Here(k: Card, r: Rules, s: State)
    ensures Reaches(k, r, s, s)
  {
    Stays(k, s, Within(r));
  }

  /** Undisturbed steps of one client, none of which fails. */
  predicate Chain(k: Card, vs: seq<View>) {
    forall i :: 0 <= i < |vs| - 1 ==> ThreadEnabled(vs[i], Ok) && LocalStep(k, vs[i], Ok) == vs[i + 1]
  }

  lemma {:induction false} Alone(k: Card, r: Rules, s: State, t: nat, vs: seq<View>)
    requires WellFormed(s) && t < |s.clients| && |vs| > 0 && vs[0] == Look(s, t) && Chain(k, vs)
    ensures vs[|vs| - 1].c.h == s.clients[t].h
    ensures Reaches(k, r, s, Store(s, t, vs[|vs| - 1]))
    decreases |vs|
  {
    if |vs| == 1 {
      assert Store(s, t, Look(s, t)) == s;
      Here(k, r, s);
    } else {
      var v, last := vs[1], vs[|vs| - 1];
      assert v == LocalStep(k, vs[0], Ok) && ThreadEnabled(vs[0], Ok);
      LocalMoves(k, vs[0], Ok);
      var s1 := Store(s, t, v);
      assert Look(s1, t) == v;
      Step(k, r, s, Thread(t, Ok));
      assert Chain(k, vs[1..]);
      Alone(k, r, s1, t, vs[1..]);
      assert Store(s1, t, last) == Store(s, t, last);
      Then(k, r, s, s1, Store(s, t, last));
    }
  }

  // ----- milestones of one client -----

  /** An unmapped encryption of the whole buffer, one chunk long, has just been called. */
  predicate Called(v: View) {
    && v.c.pc == Lib(IoEncrypt) && v.c.l.enc && !v.c.l.mapped && v.c.l.off == v.c.l.len == 0
    && 0 < v.c.l.rem == |v.c.user| <= CHUNK
  }

  function AtProbe(v: View): View {
    View(v.c.(pc := Pre(ProbeWrite), l := v.c.l.(len := v.c.l.rem, rem := 0)),
         v.j.(isE := true, isNotMM := true), v.g)
  }

  lemma ToProbe(k: Card, v: View) returns (vs: seq<View>)
    requires Called(v)
    ensures |vs| > 0 && vs[0] == v && vs[|vs| - 1] == AtProbe(v) && Chain(k, vs)
  {
    var v1 := View(v.c.(pc := Lib(IoMmap)), v.j.(isE := true), v.g);
    var v2 := View(v.c.(pc := Lib(LoopTop)), v1.j.(isNotMM := true), v.g);
    var v3 := v2.(c := v2.c.(pc := Pre(Entry), l := v.c.l.(len := v.c.l.rem, rem := 0)));
    assert LocalStep(k, v, Ok) == v1;
    assert LocalStep(k, v1, Ok) == v2;
    assert LocalStep(k, v2, Ok) == v3;
    assert LocalStep(k, v3, Ok) == AtProbe(v);
    vs := [v, v1, v2, v3, AtProbe(v)];
  }

  /** At the semaphore, with a fresh kernel buffer holding the caller's bytes. */
  function AtDown(k: Card, v: View): View {
    View(v.c.(pc := Pre(Down)), v.j.(len := v.c.l.len, msg := Some(v.g.nextBuf)),
         v.g.(heap := v.g.heap[v.g.nextBuf := v.c.user], nextBuf := v.g.nextBuf + 1,
              dev := v.g.dev.(live := Answer(k, LIVE_PROBE))))
  }

  /** The buffer has been allocated. */
  function AtCopy(k: Card, v: View): View {
    View(v.c.(pc := Pre(CopyIn)), v.j.(len := v.c.l.len, msg := Some(v.g.nextBuf)),
         v.g.(heap := v.g.heap[v.g.nextBuf := Zeros(v.c.l.len)], nextBuf := v.g.nextBuf + 1,
              dev := v.g.dev.(live := Answer(k, LIVE_PROBE))))
  }

  lemma CopyStep(k: Card, v: View)
    requires v.c.l.off == 0 < v.c.l.len == |v.c.user|
    ensures LocalStep(k, AtCopy(k, v), Ok) == AtDown(k, v)
  {
    var b := v.g.nextBuf;
    assert Take(v.c.user[0..], v.c.l.len) == v.c.user && Blit(Zeros(v.c.l.len), 0, v.c.user) == v.c.user;
    assert AtCopy(k, v).g.heap[b := v.c.user] == v.g.heap[b := v.c.user];
  }

  /** At the allocation, the probe answered. */
  function AtAlloc(k: Card, v: View): View {
    View(v.c.(pc := Pre(Alloc)), v.j, v.g.(dev := v.g.dev.(live := Answer(k, LIVE_PROBE))))
  }

  lemma ToAlloc(k: Card, v: View) returns (vs: seq<View>)
    requires k.alive && v.c.pc == Pre(ProbeWrite)
    ensures |vs| == 3 && vs[0] == v && vs[2] == AtAlloc(k, v) && Chain(k, vs)
  {
    Probe.Complement(k);
    var v1 := View(v.c.(pc := Pre(ProbeRead)), v.j, v.g.(dev := v.g.dev.(live := Answer(k, LIVE_PROBE))));
    assert LocalStep(k, v, Ok) == v1;
    assert LocalStep(k, v1, Ok) == AtAlloc(k, v);
    vs := [v, v1, AtAlloc(k, v)];
  }

  lemma ToDown(k: Card, v: View) returns (vs: seq<View>)
    requires k.alive && v.c.pc == Pre(ProbeWrite) && v.j.isNotMM && v.c.l.off == 0 < v.c.l.len == |v.c.user|
    ensures |vs| > 0 && vs[0] == v && vs[|vs| - 1] == AtDown(k, v) && Chain(k, vs)
  {
    var ws := ToAlloc(k, v);
    assert LocalStep(k, AtAlloc(k, v), Ok) == AtCopy(k, v);
    CopyStep(k, v);
    vs := [v, ws[1], AtAlloc(k, v), AtCopy(k, v), AtDown(k, v)];
  }

  /** Down, keys, length and message: a memory-mapped job about to write `status`. */
  function AtStatus(v: View): View {
    View(v.c.(pc := Mmio(MStatus), err := -1, downs := v.c.downs + 1), v.j,
         v.g.(sem := v.g.sem - 1,
              dev := v.g.dev.(keys := v.j.keyab, lenMsg := v.j.len,
                              window := Blit(v.g.dev.window, 0, Take(Kernel(v.g, v.j), v.j.len)))))
  }

  lemma ToStatus(k: Card, v: View) returns (vs: seq<View>)
    requires v.c.pc == Pre(Down) && v.g.sem > 0 && v.j.isM && v.j.isNotMM
    ensures |vs| > 0 && vs[0] == v && vs[|vs| - 1] == AtStatus(v) && Chain(k, vs)
  {
    var c := v.c.(err := -1, downs := v.c.downs + 1);
    var g := v.g.(sem := v.g.sem - 1);
    var v1 := View(c.(pc := Mmio(LoadKey)), v.j, g);
    var v2 := View(c.(pc := Mmio(MLen)), v.j, g.(dev := g.dev.(keys := v.j.keyab)));
    var v3 := View(c.(pc := Mmio(MData)), v.j, g.(dev := g.dev.(keys := v.j.keyab, lenMsg := v.j.len)));
    assert LocalStep(k, v, Ok) == v1;
    assert LocalStep(k, v1, Ok) == v2;
    assert LocalStep(k, v2, Ok) == v3;
    assert LocalStep(k, v3, Ok) == AtStatus(v);
    vs := [v, v1, v2, v3, AtStatus(v)];
  }

  /** The card has been started on the window. */
  function AtStart(v: View): View {
    View(v.c.(pc := if v.j.isI then Wait(First) else Mmio(MPoll)), v.j,
         v.g.(dev := v.g.dev.(status := StatusWord(v.j) + 1,
                              mmio := Some(Op(v.j.isE, v.g.dev.keys, v.g.dev.lenMsg, v.j.isI, 0, false)))))
  }

  lemma ToStart(k: Card, v: View) returns (vs: seq<View>)
    requires v.c.pc == Mmio(MStatus)
    ensures |vs| > 0 && vs[0] == v && vs[|vs| - 1] == AtStart(v) && Chain(k, vs)
  {
    var v1 := View(v.c.(pc := Mmio(MStart)), v.j, v.g.(dev := v.g.dev.(status := StatusWord(v.j))));
    assert LocalStep(k, v, Ok) == v1;
    assert LocalStep(k, v1, Ok) == AtStart(v);
    vs := [v, v1, AtStart(v)];
  }

  /** A ready memory-mapped job has its result back in the kernel buffer, then in the caller's. */
  function AtUser(v: View): View {
    var data := Take(v.g.dev.window, v.j.len);
    View(v.c.(pc := Up(true), user := Blit(v.c.user, v.c.l.off, data)), v.j, PutKernel(v, data).g)
  }

  lemma ToUser(k: Card, v: View) returns (vs: seq<View>)
    requires v.c.pc == Mmio(MPoll) || v.c.pc == Wait(First)
    requires v.j.isM && v.j.isNotMM && Ready(v.g.dev, true)
    requires v.j.msg.Some? && v.j.msg.value in v.g.heap
    requires |v.g.heap[v.j.msg.value]| == v.j.len <= |v.g.dev.window|
    ensures |vs| > 0 && vs[0] == v && vs[|vs| - 1] == AtUser(v) && Chain(k, vs)
  {
    var data := Take(v.g.dev.window, v.j.len);
    var v1 := v.(c := v.c.(pc := Mmio(MOut)));
    var v2 := View(v.c.(pc := Mmio(MUser)), v.j, PutKernel(v, data).g);
    assert Blit(v.g.heap[v.j.msg.value], 0, data) == data;
    assert Take(Kernel(v2.g, v2.j), v.j.len) == data;
    assert LocalStep(k, v, Ok) == v1;
    assert LocalStep(k, v1, Ok) == v2;
    assert LocalStep(k, v2, Ok) == AtUser(v);
    vs := [v, v1, v2, AtUser(v)];
  }

  /** Up, free, and back in the library with 0. */
  function AtReturn(v: View): View {
    View(v.c.(pc := Idle, ups := v.c.ups + 1, l := v.c.l.(off := v.c.l.off + v.c.l.len, ret := 0)),
         v.j.(msg := None), Released(v.g.(sem := v.g.sem + 1), v.j))
  }

  lemma ToReturn(k: Card, v: View) returns (vs: seq<View>)
    requires v.c.pc == Up(true) && v.c.l.rem == 0
    ensures |vs| > 0 && vs[0] == v && vs[|vs| - 1] == AtReturn(v) && Chain(k, vs)
  {
    var v1 := View(v.c.(pc := Free(true), ups := v.c.ups + 1), v.j, v.g.(sem := v.g.sem + 1));
    assert LocalStep(k, v, Ok) == v1;
    assert LocalStep(k, v1, Ok) == AtReturn(v);
    vs := [v, v1, AtReturn(v)];
  }

  /** Down, keys and a DMA mapping. */
  function AtMap(v: View): View
    requires v.j.msg.Some?
  {
    View(v.c.(pc := Dma(DAddr), err := -1, downs := v.c.downs + 1, dma := v.j.msg.value), v.j,
         v.g.(sem := v.g.sem - 1, mapped := v.g.mapped + {v.j.msg.value}, dev := v.g.dev.(keys := v.j.keyab)))
  }

  lemma ToMap(k: Card, v: View) returns (vs: seq<View>)
    requires v.c.pc == Pre(Down) && v.g.sem > 0 && !v.j.isM && v.j.msg.Some?
    ensures |vs| > 0 && vs[0] == v && vs[|vs| - 1] == AtMap(v) && Chain(k, vs)
  {
    var c := v.c.(err := -1, downs := v.c.downs + 1);
    var v1 := View(c.(pc := Mmio(LoadKey)), v.j, v.g.(sem := v.g.sem - 1));
    var v2 := View(c.(pc := Dma(DMap)), v.j, v1.g.(dev := v.g.dev.(keys := v.j.keyab)));
    assert LocalStep(k, v, Ok) == v1;
    assert LocalStep(k, v1, Ok) == v2;
    assert LocalStep(k, v2, Ok) == AtMap(v);
    vs := [v, v1, v2, AtMap(v)];
  }

  /** Address, length and command: the card has been started on the kernel buffer. */
  function AtDma(v: View): View {
    View(v.c.(pc := if v.j.isI then Wait(First) else Dma(DPoll)), v.j,
         v.g.(dev := v.g.dev.(addrOp := v.c.dma, dlen := v.j.len, cmd := CmdWord(v.j),
                              dma := Some(Op(v.j.isE, v.g.dev.keys, v.j.len, v.j.isI, v.c.dma, false)))))
  }

  lemma ToDma(k: Card, v: View) returns (vs: seq<View>)
    requires v.c.pc == Dma(DAddr)
    ensures |vs| > 0 && vs[0] == v && vs[|vs| - 1] == AtDma(v) && Chain(k, vs)
  {
    var v1 := View(v.c.(pc := Dma(DLen)), v.j, v.g.(dev := v.g.dev.(addrOp := v.c.dma)));
    var v2 := View(v.c.(pc := Dma(DCmd)), v.j, v.g.(dev := v1.g.dev.(dlen := v.j.len)));
    assert LocalStep(k, v, Ok) == v1;
    assert LocalStep(k, v1, Ok) == v2;
    assert LocalStep(k, v2, Ok) == AtDma(v);
    vs := [v, v1, v2, AtDma(v)];
  }

  /** The wait's first test fails: enqueue and test again. */
  function AtCheck(v: View): View { v.(c := v.c.(pc := Wait(Check), queued := true, woken := false)) }

  lemma ToCheck(k: Card, v: View) returns (vs: seq<View>)
    requires v.c.pc == Wait(First) && !Ready(v.g.dev, v.j.isM)
    ensures |vs| > 0 && vs[0] == v && vs[|vs| - 1] == AtCheck(v) && Chain(k, vs)
  {
    var v1 := v.(c := v.c.(pc := Wait(Enqueue)));
    assert LocalStep(k, v, Ok) == v1;
    assert LocalStep(k, v1, Ok) == AtCheck(v);
    vs := [v, v1, AtCheck(v)];
  }

  // ----- milestones of the system -----

  /** The card carries its operation through and clears busy. */
  function Worked(k: Card, g: Shared, dma: bool): Shared {
    var g1 := TransformStep(k, g, dma);
    g1.(dev := FinishStep(g1.dev, dma))
  }

  lemma CardWorks(k: Card, r: Rules, s: State, dma: bool)
    requires WellFormed(s) && CardEnabled(s.g.dev, Transform(dma))
    ensures Reaches(k, r, s, s.(g := Worked(k, s.g, dma)))
  {
    var s1 := s.(g := TransformStep(k, s.g, dma));
    Step(k, r, s, Hardware(Transform(dma)));
    Step(k, r, s1, Hardware(Finish(dma)));
    Then(k, r, s, s1, s.(g := Worked(k, s.g, dma)));
  }

  function EnterCall(v: View): View { UserStep(v, Call(true, false, |v.c.user|)) }

  function Entered(k: Card, v: View): View { AtDown(k, AtProbe(EnterCall(v))) }

  /** A client calls `encrypt` on its whole one-chunk buffer and comes to the liveness probe. */
  lemma EnterProbe(k: Card, r: Rules, s: State, t: nat)
    requires WellFormed(s) && t < |s.clients| && s.clients[t].pc.Idle? && 0 < |s.clients[t].user| <= CHUNK
    ensures Reaches(k, r, s, Store(s, t, AtProbe(EnterCall(Look(s, t)))))
  {
    var v := EnterCall(Look(s, t));
    var s1 := Store(s, t, v);
    Step(k, r, s, User(t, Call(true, false, |s.clients[t].user|)));
    var vs := ToProbe(k, v);
    assert Look(s1, t) == v;
    Alone(k, r, s1, t, vs);
    Then(k, r, s, s1, Store(s1, t, AtProbe(v)));
    assert Store(s1, t, AtProbe(v)) == Store(s, t, AtProbe(v));
  }

  /** On to the semaphore. */
  lemma Enter(k: Card, r: Rules, s: State, t: nat)
    requires k.alive && WellFormed(s) && t < |s.clients| && s.clients[t].pc.Idle? && 0 < |s.clients[t].user| <= CHUNK
    ensures Reaches(k, r, s, Store(s, t, Entered(k, Look(s, t))))
  {
    var v := AtProbe(EnterCall(Look(s, t)));
    EnterProbe(k, r, s, t);
    var s2 := Store(s, t, v);
    assert Look(s2, t) == v;
    var vs := ToDown(k, v);
    Alone(k, r, s2, t, vs);
    var s3 := Store(s2, t, AtDown(k, v));
    Then(k, r, s, s2, s3);
    assert s3 == Store(s, t, Entered(k, Look(s, t)));
  }

  lemma Goes(k: Card, r: Rules, s0: State, s: State, t: nat, vs: seq<View>)
    requires Reaches(k, r, s0, s) && WellFormed(s) && t < |s.clients|
    requires |vs| > 0 && vs[0] == Look(s, t) && Chain(k, vs)
    ensures vs[|vs| - 1].c.h == s.clients[t].h
    ensures Reaches(k, r, s0, Store(s, t, vs[|vs| - 1]))
  {
    Alone(k, r, s, t, vs);
    Then(k, r, s0, s, Store(s, t, vs[|vs| - 1]));
  }

  lemma Act(k: Card, r: Rules, s0: State, s: State, e: Event)
    requires Reaches(k, r, s0, s) && Enabled(s, e) && Allowed(r, e)
    ensures Reaches(k, r, s0, Next(k, s, e))
  {
    Step(k, r, s, e);
    Then(k, r, s0, s, Next(k, s, e));
  }

  /** A one-chunk encryption by memory-mapped I/O, its message `m` already in the window. */
  predicate Loaded(v: View, m: seq<Byte>) {
    && v.c.pc == Mmio(MStatus) && v.j.isE && v.j.isM && v.j.isNotMM
    && v.c.l.rem == 0 && v.c.l.off == 0 && |v.c.user| == v.j.len == |m| <= |v.g.dev.window|
    && v.g.dev.keys == v.j.keyab && v.g.dev.lenMsg == v.j.len && Take(v.g.dev.window, v.j.len) == m
    && v.j.msg.Some? && v.j.msg.value in v.g.heap && |v.g.heap[v.j.msg.value]| == v.j.len
  }

  /** Started, then finished by the card: ready, with the cipher of `m` in the window. */
  lemma WorkedView(k: Card, v: View, m: seq<Byte>)
    requires k.Good() && Loaded(v, m)
    ensures var w := AtStart(v); var g := Worked(k, w.g, false);
      && CardEnabled(w.g.dev, Transform(false)) && Ready(g.dev, true) && g.dev.mmio.None?
      && Take(g.dev.window, v.j.len) == k.enc(v.j.keyab, m) && |g.dev.window| == |v.g.dev.window|
      && g.heap == v.g.heap && g.dev.dma == v.g.dev.dma && g.dev.cmd == v.g.dev.cmd && g.dev.istatus == v.g.dev.istatus
      && g.dev.owed == v.g.dev.owed | (if v.j.isI then MMIO_DONE else 0)
      && g.sem == v.g.sem && g.mapped == v.g.mapped
  {
    assert |k.enc(v.j.keyab, m)| == |m|;
  }

  lemma Copied(k: Card, r: Rules, s0: State, s: State, t: nat, data: seq<Byte>) returns (s': State)
    requires Reaches(k, r, s0, s) && WellFormed(s) && t < |s.clients|
    requires var v := Look(s, t);
      && (v.c.pc == Mmio(MPoll) || v.c.pc == Wait(First))
      && v.j.isM && v.j.isNotMM && Ready(v.g.dev, true) && v.c.l.rem == 0 && v.c.l.off == 0
      && v.j.msg.Some? && v.j.msg.value in v.g.heap && |v.g.heap[v.j.msg.value]| == v.j.len == |v.c.user|
      && v.j.len <= |v.g.dev.window| && Take(v.g.dev.window, v.j.len) == data
    ensures Reaches(k, r, s0, s') && s' == Store(s, t, AtReturn(AtUser(Look(s, t))))
    ensures AtUser(Look(s, t)).c.user == data
  {
    var v := Look(s, t);
    var vs := ToUser(k, v);
    Goes(k, r, s0, s, t, vs);
    var s1 := Store(s, t, AtUser(v));
    assert Look(s1, t) == AtUser(v);
    vs := ToReturn(k, AtUser(v));
    Goes(k, r, s0, s1, t, vs);
    s' := Store(s1, t, AtReturn(AtUser(v)));
    assert s' == Store(s, t, AtReturn(AtUser(v)));
    assert Blit(v.c.user, 0, data) == data;
  }

  /** From the loaded window to the library's return: the caller gets the cipher of `m`. */
  lemma Finishes(k: Card, r: Rules, s0: State, s: State, t: nat, m: seq<Byte>) returns (s': State)
    requires k.Good() && Reaches(k, r, s0, s) && WellFormed(s) && t < |s.clients| && Loaded(Look(s, t), m)
    ensures Reaches(k, r, s0, s')
    ensures var v := Look(s, t); var g := Worked(k, AtStart(v).g, false);
      s' == Store(s, t, AtReturn(AtUser(AtStart(v).(g := g))))
      && AtUser(AtStart(v).(g := g)).c.user == k.enc(v.j.keyab, m)
  {
    var v := Look(s, t);
    var vs := ToStart(k, v);
    Goes(k, r, s0, s, t, vs);
    var w := AtStart(v);
    var s1 := Store(s, t, w);
    WorkedView(k, v, m);
    var s2 := s1.(g := Worked(k, w.g, false));
    CardWorks(k, r, s1, false);
    Then(k, r, s0, s1, s2);
    s' := Copied(k, r, s0, s2, t, k.enc(v.j.keyab, m));
  }
}
