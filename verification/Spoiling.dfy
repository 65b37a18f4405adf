/**
 * What a mapped caller cannot bear, exactly: with the card that adds one to every byte, a single
 * event that spoils the window leaves other bytes there when the call returns 0.
 */
module Spoiling {
  import opened Types
  import opened Machine
  import opened Buffers
  import opened Isolation
  import opened EndToEnd
  import opened Windows
  import opened Mapped
  import opened Hazards

  // ----- different windows stay different -----

  lemma LengthsKept(isE: bool, key: nat, w: seq<Byte>, n: nat)
    ensures |SHIFTING.Cipher(isE, key, Take(w, n))| == Min(n, |w|)
  {
    ShiftingIsGood();
  }

  lemma PassDiffers(isE: bool, key: nat, w: seq<Byte>, w': seq<Byte>, n: nat, i: nat)
    requires i < |w| == |w'| && w[i] != w'[i]
    ensures var a, b := Pass(SHIFTING, isE, key, w, n), Pass(SHIFTING, isE, key, w', n);
      i < |a| == |b| && a[i] != b[i]
  {
    if i < Min(n, |w|) { Shifts(isE, key, Take(w, n), Take(w', n), i); }
    LengthsKept(isE, key, w, n);
    LengthsKept(isE, key, w', n);
  }

  lemma {:induction false} PassesDiffer(isE: bool, key: nat, w: seq<Byte>, w': seq<Byte>, n: nat, i: nat)
    requires i < |w| == |w'| && w[i] != w'[i]
    ensures Passes(SHIFTING, isE, key, w, n) != Passes(SHIFTING, isE, key, w', n)
    decreases n
  {
    var m := Min(n, CHUNK);
    PassDiffers(isE, key, w, w', m, i);
    if n > CHUNK {
      PassesDiffer(isE, key, Pass(SHIFTING, isE, key, w, CHUNK), Pass(SHIFTING, isE, key, w', CHUNK), n - CHUNK, i);
    }
  }

  // ----- one event -----

  /** The window has other bytes, and nothing else that matters to the client has changed. */
  predicate Changed(v: View, v': View) {
    && SamePlace(v, v') && |v'.g.dev.window| == |v.g.dev.window| && v'.g.dev.window != v.g.dev.window
    && (Waits(v) ==> Transformed(v'.g.dev) == Transformed(v.g.dev))
  }

  lemma SameLeft(v: View, v': View)
    requires Changed(v, v')
    ensures Left(v') == Left(v)
  {}

  /** The call now aims at something else. */
  lemma ElseWhere(key: nat, isE: bool, goal: seq<Byte>, v: View, v': View) returns (other: seq<Byte>)
    requires Aims(SHIFTING, key, isE, goal, v) && Changed(v, v') && !v.c.pc.Idle?
    ensures Aims(SHIFTING, key, isE, other, v') && other != goal
  {
    if v.c.pc == Up(false) || v.c.pc == Free(false) {
      other := goal + [0];
    } else {
      var w, w' := v.g.dev.window, v'.g.dev.window;
      SameLeft(v, v');
      var i :| 0 <= i < |w| && w[i] != w'[i];
      PassesDiffer(isE, key, w, w', Left(v), i);
      other := Passes(SHIFTING, isE, key, w', Left(v));
    }
  }

  lemma CardChanges(v: View, e: CardEvent)
    requires CardEnabled(v.g.dev, e) && |v.g.dev.window| == WINDOW
    requires match e
      case Poke(at, value) => v.g.dev.window[at] != value
      case Transform(dma) => !dma && Pending(v.g.dev.mmio) && !(Waits(v) && v.j.isM)
      case _ => false
    requires Waits(v) ==> v.j.isM
    ensures Changed(v, v.(g := CardStep(SHIFTING, v.g, e)))
  {
    if e.Transform? { FirstByteShifted(v.g.dev.window, v.g.dev.mmio.value); }
  }

  lemma BringsChange(v: View, ch: Choice)
    requires LocalOk(v) && BringsOther(v) && |v.g.dev.window| == WINDOW
    ensures var d, d' := v.g.dev, MmioStep(v, MData, ch).g.dev;
      |d'.window| == WINDOW && d'.window != d.window && d'.mmio == d.mmio
  {
    var m := Take(Kernel(v.g, v.j), v.j.len);
    assert Take(Blit(v.g.dev.window, 0, m), v.j.len) == m;
  }

  lemma SpoilsChanges(s: State, e: Event, t: nat)
    requires IsoOk(SHIFTING, s, NOBODY) && Enabled(s, e) && Spoils(s, e, t) && t < |s.clients|
    requires Waits(Look(s, t)) ==> Look(s, t).j.isM
    ensures WellFormed(Next(SHIFTING, s, e)) && t < |Next(SHIFTING, s, e).clients|
    ensures Changed(Look(s, t), Look(Next(SHIFTING, s, e), t))
  {
    OthersPlace(SHIFTING, s, e, t);
    match e
    case Hardware(c) => CardChanges(Look(s, t), c);
    case Thread(u, ch) =>
      assert LocalOk(Look(s, u));
      BringsChange(Look(s, u), ch);
      assert LocalStep(SHIFTING, Look(s, u), ch) == MmioStep(Look(s, u), MData, ch);
  }

  /** A mapped caller works through the window only. */
  lemma MappedByWindow(v: View)
    requires LocalOk(v) && v.c.l.mapped
    ensures Waits(v) ==> v.j.isM
  {}

  lemma SpoiltStep(s: State, e: Event, t: nat, key: nat, isE: bool, goal: seq<Byte>) returns (other: seq<Byte>)
    requires IsoOk(SHIFTING, s, NOBODY) && Enabled(s, e) && Spoils(s, e, t) && t < |s.clients|
    requires !s.clients[t].pc.Idle? && Aims(SHIFTING, key, isE, goal, Look(s, t))
    ensures WellFormed(Next(SHIFTING, s, e)) && t < |Next(SHIFTING, s, e).clients|
    ensures Aims(SHIFTING, key, isE, other, Look(Next(SHIFTING, s, e), t)) && other != goal
  {
    assert LocalOk(Look(s, t));
    MappedByWindow(Look(s, t));
    SpoilsChanges(s, e, t);
    other := ElseWhere(key, isE, goal, Look(s, t), Look(Next(SHIFTING, s, e), t));
  }

  // ----- whole calls -----

  lemma {:induction false} AimsTo(k: Card, tr: seq<State>, ev: seq<Event>, t: nat, key: nat, isE: bool, goal: seq<Byte>,
                                  n: nat, j: nat)
    requires k.Good() && FromStart(k, tr, ev) && n <= j <= |ev| && UnspoiltRun(tr, ev, t, n, j)
    requires forall m :: n <= m < j ==> t < |tr[m].clients| && !tr[m].clients[t].pc.Idle?
    requires WellFormed(tr[n]) && t < |tr[n].clients| && Aims(k, key, isE, goal, Look(tr[n], t))
    ensures WellFormed(tr[j]) && t < |tr[j].clients| && Aims(k, key, isE, goal, Look(tr[j], t))
    decreases j
  {
    if n < j {
      AimsTo(k, tr, ev, t, key, isE, goal, n, j - 1);
      assert !Spoils(tr[j - 1], ev[j - 1], t);
      AimsOn(k, tr, ev, t, key, isE, goal, j - 1);
    }
  }

  /** A call spoilt by event `n` and by no other aims at something else to the end. */
  lemma SpoiltAims(tr: seq<State>, ev: seq<Event>, t: nat, isE: bool, length: nat, i: nat, n: nat, j: nat)
    returns (other: seq<Byte>)
    requires FromStart(SHIFTING, tr, ev) && Calling(tr, ev, t, isE, true, length, i, j) && i < n < j
    requires UnspoiltRun(tr, ev, t, i, n) && UnspoiltRun(tr, ev, t, n + 1, j)
    requires WellFormed(tr[n]) && Spoils(tr[n], ev[n], t)
    ensures WellFormed(tr[i]) && WellFormed(tr[j]) && t < |tr[i].clients| && t < |tr[j].clients|
    ensures var key := Look(tr[i], t).j.keyab;
      Aims(SHIFTING, key, isE, other, Look(tr[j], t)) && other != Passes(SHIFTING, isE, key, tr[i].g.dev.window, length)
  {
    ShiftingIsGood();
    MappedAims(SHIFTING, tr, ev, t, isE, length, i, n);
    IsoRun(SHIFTING, tr, ev, n);
    StepFacts(SHIFTING, tr, ev, n);
    var key := Look(tr[i], t).j.keyab;
    other := SpoiltStep(tr[n], ev[n], t, key, isE, Passes(SHIFTING, isE, key, tr[i].g.dev.window, length));
    AimsTo(SHIFTING, tr, ev, t, key, isE, other, n + 1, j);
  }

  /**
   * Exactly: if at most one event of a mapped call that returns 0 spoils the window, the call has
   * passed over the window once per write if and only if that event does not spoil it either.
   */
  lemma SpoiltExactly(tr: seq<State>, ev: seq<Event>, t: nat, isE: bool, length: nat, i: nat, n: nat, j: nat)
    requires FromStart(SHIFTING, tr, ev) && Calling(tr, ev, t, isE, true, length, i, j) && i < n < j
    requires UnspoiltRun(tr, ev, t, i, n) && UnspoiltRun(tr, ev, t, n + 1, j)
    requires t < |tr[j].clients| && tr[j].clients[t].pc.Idle? && tr[j].clients[t].l.ret == 0
    ensures WellFormed(tr[i]) && t < |tr[i].clients| && WellFormed(tr[n])
    ensures !Spoils(tr[n], ev[n], t) <==>
      tr[j].g.dev.window == Passes(SHIFTING, isE, Look(tr[i], t).j.keyab, tr[i].g.dev.window, length)
  {
    ShiftingIsGood();
    StepFacts(SHIFTING, tr, ev, n);
    if Spoils(tr[n], ev[n], t) {
      var other := SpoiltAims(tr, ev, t, isE, length, i, n, j);
    } else {
      MappedEffect(SHIFTING, tr, ev, t, isE, length, i, j);
    }
  }
}
