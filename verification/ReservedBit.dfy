/**
 * The demo module that tracks one page: reading its device sets a reserved bit in the page's
 * entry, and the fault the next access takes clears it again through `rsvd_fault_hook`.
 */
module ReservedBit {
  import opened Types

  // ----- page-table entries -----

  const PRESENT: bv64 := 0x1
  const MARK: bv64 := 0x0004_0000_0000_0000 // bit 50

  /** The two updates the module makes to a word change bit 50 and nothing else. */
  lemma SetMark(w: bv64)
    ensures (w | MARK) & MARK != 0 && (w | MARK) & !MARK == w & !MARK
  {}

  lemma ClearMark(w: bv64)
    ensures (w & !MARK) & MARK == 0 && (w & !MARK) & !MARK == w & !MARK
  {}

  /** Nothing is lost: the word can be put together again. */
  lemma ClearUnmarked(w: bv64)
    ensures w & MARK == 0 ==> w & !MARK == w
  {}

  lemma ClearMarked(w: bv64)
    ensures w & MARK != 0 ==> (w & !MARK) | MARK == w
  {}

  lemma SetPresent(w: bv64)
    ensures (w | MARK) & PRESENT == w & PRESENT
  {}

  lemma ClearPresent(w: bv64)
    ensures (w & !MARK) & PRESENT == w & PRESENT
  {}

  /** What is done to an entry and what is asked of it. */
  datatype Bits = Bits(arm: bv64 -> bv64, disarm: bv64 -> bv64, marked: bv64 -> bool, present: bv64 -> bool) {
    /** The operations of the source. */
    ghost predicate IsWord() { forall w :: IsWordAt(w) }

    predicate IsWordAt(w: bv64) {
      && arm(w) == w | MARK && disarm(w) == w & !MARK
      && marked(w) == (w & MARK != 0) && present(w) == (w & PRESENT != 0)
    }

    /** All that the proofs below need to know of them. */
    ghost predicate Lawful() { forall w :: LawfulAt(w) }

    predicate LawfulAt(w: bv64) {
      && marked(arm(w)) && disarm(arm(w)) == disarm(w) && present(arm(w)) == present(w)
      && !marked(disarm(w)) && disarm(disarm(w)) == disarm(w) && present(disarm(w)) == present(w)
      && (if marked(w) then arm(disarm(w)) == w else disarm(w) == w)
    }
  }

  const WORD := Bits(w => w | MARK, w => w & !MARK, w => w & MARK != 0, w => w & PRESENT != 0)

  lemma WordArms(w: bv64)
    ensures WORD.arm(w) == w | MARK
  {}

  lemma WordDisarms(w: bv64)
    ensures WORD.disarm(w) == w & !MARK
  {}

  lemma WordMarked(w: bv64)
    ensures WORD.marked(w) == (w & MARK != 0)
  {}

  lemma WordPresent(w: bv64)
    ensures WORD.present(w) == (w & PRESENT != 0)
  {}

  lemma WordIsWord()
    ensures WORD.IsWord()
  {
    forall w
      ensures WORD.IsWordAt(w)
    {
      WordArms(w);
      WordDisarms(w);
      WordMarked(w);
      WordPresent(w);
    }
  }

  lemma WordLawful(b: Bits)
    requires b.IsWord()
    ensures b.Lawful()
  {
    forall w
      ensures b.LawfulAt(w)
    {
      assert b.IsWordAt(w) && b.IsWordAt(w | MARK) && b.IsWordAt(w & !MARK);
      SetMark(w);
      ClearMark(w);
      ClearUnmarked(w);
      ClearMarked(w);
      SetPresent(w);
      ClearPresent(w);
    }
  }

  /** The word with bit 50 as given and the other 63 bits as they are. */
  function WithBit50(w: bv64, on: bool): bv64 { if on then w | (1 << 50) else w & 0xFFFB_FFFF_FFFF_FFFF }

  lemma Bit50(w: bv64)
    ensures w | MARK == WithBit50(w, true) && w & !MARK == WithBit50(w, false)
    ensures w & MARK != 0 <==> (w >> 50) & 1 == 1
  {}

  type Ptes = map<nat, bv64>

  const PAGE: nat := 4096

  function PageOf(address: nat): nat { address / PAGE }

  // ----- the module and the fault path, step by step -----

  /** The entries `get_pte` can reach; the module's two globals; the hook; what has happened. */
  datatype State = State(
    ptes: Ptes, gptr: nat,
    gpte: Option<nat>,        // the page whose entry `gpte` points to
    hook: bool,
    faults: nat,              // reserved-bit faults taken
    bad: nat,                 // of them, those that ended in pgtable_bad
    crashed: bool)            // a null `gpte` has been used
  {
    /** The pointers held point into the tables. */
    predicate Valid() { gpte.Some? ==> gpte.value in ptes }

    function ArmAt(b: Bits, page: nat): State
      requires page in ptes
    {
      this.(ptes := ptes[page := b.arm(ptes[page])])
    }

    function DisarmAt(b: Bits, page: nat): State
      requires page in ptes
    {
      this.(ptes := ptes[page := b.disarm(ptes[page])])
    }

    predicate Marked(b: Bits, page: nat) { page in ptes && b.marked(ptes[page]) }

    /** The hardware finds a present entry with a reserved bit set. */
    predicate Trips(b: Bits, address: nat) { Marked(b, PageOf(address)) && b.present(ptes[PageOf(address)]) }
  }

  /** An access carries what it leaves in the entry, whose reserved bit the hardware never sets. */
  datatype Event = Open | Write(ptr: nat) | Read | Access(address: nat, after: bv64) | Release

  /** One step. An access that faults is not completed; it comes again as another event. */
  function Step(b: Bits, s: State, e: Event): (s': State)
    requires s.Valid()
    ensures s'.Valid() && s'.ptes.Keys == s.ptes.Keys
  {
    match e
    case Open => s.(hook := true)
    case Write(ptr) => s.(gptr := ptr)
    case Read =>
      if PageOf(s.gptr) !in s.ptes then s.(gpte := None, crashed := true)
      else s.(gpte := Some(PageOf(s.gptr))).ArmAt(b, PageOf(s.gptr))
    case Access(address, after) =>
      var page := PageOf(address);
      if s.Trips(b, address) then
        var s1 := s.(faults := s.faults + 1);
        if s.hook && PageOf(s.gptr) == page && s.gpte.Some? then s1.DisarmAt(b, s.gpte.value)
        else s1.(bad := s.bad + 1)
      else if page in s.ptes && b.present(s.ptes[page]) then s.(ptes := s.ptes[page := b.disarm(after)])
      else s
    case Release =>
      if s.gpte.None? then s.(hook := false, crashed := true) else s.(hook := false).DisarmAt(b, s.gpte.value)
  }

  lemma Bit0(w: bv64)
    ensures w & PRESENT != 0 <==> w & 1 == 1
  {}

  /** The updates and tests of the source, in the bits of the word. */
  lemma WordBits(b: Bits, w: bv64)
    requires b.IsWord()
    ensures b.arm(w) == WithBit50(w, true) && b.disarm(w) == WithBit50(w, false)
    ensures (b.marked(w) <==> (w >> 50) & 1 == 1) && (b.present(w) <==> w & 1 == 1)
  {
    assert b.IsWordAt(w);
    Bit50(w);
    Bit0(w);
  }

  /** Reading arms bit 50 of the page written last. */
  lemma ReadArms(b: Bits, s: State)
    requires b.IsWord() && s.Valid()
    ensures Step(b, s, Read) == var page := s.gptr / 4096;
      if page in s.ptes then s.(gpte := Some(page), ptes := s.ptes[page := WithBit50(s.ptes[page], true)])
      else s.(gpte := None, crashed := true)
  {
    if s.gptr / 4096 in s.ptes { WordBits(b, s.ptes[s.gptr / 4096]); }
  }

  /** Closing clears bit 50 of that page and takes the hook away. */
  lemma CloseDisarms(b: Bits, s: State)
    requires b.IsWord() && s.Valid()
    ensures Step(b, s, Release) ==
      if s.gpte.Some? then s.(hook := false, ptes := s.ptes[s.gpte.value := WithBit50(s.ptes[s.gpte.value], false)])
      else s.(hook := false, crashed := true)
  {
    if s.gpte.Some? { WordBits(b, s.ptes[s.gpte.value]); }
  }

  /** An access faults exactly on a present entry with bit 50 set. */
  lemma TripsExactly(b: Bits, s: State, address: nat)
    requires b.IsWord()
    ensures s.Trips(b, address) <==>
      address / 4096 in s.ptes && s.ptes[address / 4096] & 1 == 1 && (s.ptes[address / 4096] >> 50) & 1 == 1
  {
    if address / 4096 in s.ptes { WordBits(b, s.ptes[address / 4096]); }
  }

  /** Then the hook, if it is set and the page is the tracked one, clears bit 50 of `gpte`. */
  lemma FaultClears(b: Bits, s: State, address: nat, after: bv64)
    requires b.IsWord() && s.Valid() && s.Trips(b, address)
    ensures Step(b, s, Access(address, after)) == var more := s.(faults := s.faults + 1);
      if s.hook && s.gptr / 4096 == address / 4096 && s.gpte.Some?
      then more.(ptes := s.ptes[s.gpte.value := WithBit50(s.ptes[s.gpte.value], false)])
      else more.(bad := s.bad + 1)
  {
    if s.gpte.Some? { WordBits(b, s.ptes[s.gpte.value]); }
  }

  function Exec(b: Bits, s: State, ev: seq<Event>): (s': State)
    requires s.Valid()
    ensures s'.Valid() && s'.ptes.Keys == s.ptes.Keys
  {
    if ev == [] then s else Step(b, Exec(b, s, ev[..|ev| - 1]), ev[|ev| - 1])
  }

  // ----- the module is invisible but for the mark -----

  /** The tables with no page marked. */
  function Clear(b: Bits, ptes: Ptes): Ptes { map page | page in ptes :: b.disarm(ptes[page]) }

  /** What an access does to tables no module has touched. */
  function Plain(b: Bits, ptes: Ptes, address: nat, after: bv64): Ptes {
    var page := PageOf(address);
    if page in ptes && b.present(ptes[page]) then ptes[page := b.disarm(after)] else ptes
  }

  /** The accesses alone, one after the other. */
  function PlainAll(b: Bits, ptes: Ptes, accesses: seq<(nat, bv64)>): Ptes {
    if accesses == [] then ptes
    else
      var (address, after) := accesses[|accesses| - 1];
      Plain(b, PlainAll(b, ptes, accesses[..|accesses| - 1]), address, after)
  }

  lemma ClearAt(b: Bits, ptes: Ptes, page: nat, w: bv64)
    requires b.Lawful()
    requires page in ptes
    ensures Clear(b, ptes[page := w]) == Clear(b, ptes)[page := b.disarm(w)]
    ensures b.disarm(w) == b.disarm(ptes[page]) ==> Clear(b, ptes[page := w]) == Clear(b, ptes)
  {}

  lemma ArmCleared(b: Bits, s: State, page: nat)
    requires b.Lawful()
    requires page in s.ptes
    ensures Clear(b, s.ArmAt(b, page).ptes) == Clear(b, s.ptes)
  {
    assert b.LawfulAt(s.ptes[page]);
    ClearAt(b, s.ptes, page, b.arm(s.ptes[page]));
  }

  lemma DisarmCleared(b: Bits, s: State, page: nat)
    requires b.Lawful()
    requires page in s.ptes
    ensures Clear(b, s.DisarmAt(b, page).ptes) == Clear(b, s.ptes)
  {
    assert b.LawfulAt(s.ptes[page]);
    ClearAt(b, s.ptes, page, b.disarm(s.ptes[page]));
  }

  lemma UseCleared(b: Bits, ptes: Ptes, address: nat, after: bv64)
    requires b.Lawful()
    ensures Clear(b, Plain(b, ptes, address, after)) == Plain(b, Clear(b, ptes), address, after)
  {
    var page := PageOf(address);
    if page in ptes {
      assert b.LawfulAt(ptes[page]);
      assert b.LawfulAt(after);
      ClearAt(b, ptes, page, b.disarm(after));
    }
  }

  /** One step of anything leaves every bit but bit 50 of every word alone, or is the completed access. */
  lemma StepCleared(b: Bits, s: State, e: Event)
    requires b.Lawful()
    requires s.Valid()
    ensures Clear(b, Step(b, s, e).ptes) ==
      if e.Access? && !s.Trips(b, e.address) then Plain(b, Clear(b, s.ptes), e.address, e.after) else Clear(b, s.ptes)
  {
    match e
    case Read => if PageOf(s.gptr) in s.ptes { ArmCleared(b, s, PageOf(s.gptr)); }
    case Release => if s.gpte.Some? { DisarmCleared(b, s, s.gpte.value); }
    case Access(address, after) =>
      if s.Trips(b, address) {
        if s.gpte.Some? { DisarmCleared(b, s, s.gpte.value); }
      } else {
        UseCleared(b, s.ptes, address, after);
      }
    case _ =>
  }

  /** Some of the accesses of a run, in its order. */
  ghost predicate Among(accesses: seq<(nat, bv64)>, ev: seq<Event>) {
    if ev == [] then accesses == []
    else
      var (rest, e) := (ev[..|ev| - 1], ev[|ev| - 1]);
      || Among(accesses, rest)
      || (e.Access? && accesses != [] && accesses[|accesses| - 1] == (e.address, e.after)
          && Among(accesses[..|accesses| - 1], rest))
  }

  lemma {:induction false} Extended(b: Bits, accesses: seq<(nat, bv64)>, address: nat, after: bv64, ptes: Ptes)
    requires b.Lawful()
    ensures PlainAll(b, ptes, accesses + [(address, after)]) == Plain(b, PlainAll(b, ptes, accesses), address, after)
  {
    assert (accesses + [(address, after)])[..|accesses|] == accesses;
  }

  /**
   * In every run whatever, and but for bit 50, the tables are what some of the run's accesses
   * alone make of them: the module never changes another bit of an entry.
   */
  lemma {:induction false} OnlyTheMark(b: Bits, s: State, ev: seq<Event>) returns (done: seq<(nat, bv64)>)
    requires b.Lawful()
    requires s.Valid()
    ensures Among(done, ev) && Clear(b, Exec(b, s, ev).ptes) == PlainAll(b, Clear(b, s.ptes), done)
  {
    done := [];
    if ev != [] {
      var rest, e := ev[..|ev| - 1], ev[|ev| - 1];
      done := OnlyTheMark(b, s, rest);
      StepCleared(b, Exec(b, s, rest), e);
      if e.Access? && !Exec(b, s, rest).Trips(b, e.address) {
        Extended(b, done, e.address, e.after, Clear(b, s.ptes));
        assert (done + [(e.address, e.after)])[..|done|] == done;
        done := done + [(e.address, e.after)];
      }
    }
  }

  // ----- careful use -----

  /** Point elsewhere only when nothing is armed; arm an open device on a page with an entry; close after arming. */
  ghost predicate Careful(b: Bits, s: State, e: Event) {
    match e
    case Write(ptr) => forall page :: s.Marked(b, page) ==> page == PageOf(ptr)
    case Read => s.hook && PageOf(s.gptr) in s.ptes
    case Release => s.gpte.Some?
    case _ => true
  }

  ghost predicate CarefulRun(b: Bits, s: State, ev: seq<Event>)
    requires s.Valid()
  {
    forall n :: 0 <= n < |ev| ==> Careful(b, Exec(b, s, ev[..n]), ev[n])
  }

  predicate Armed(b: Bits, s: State) { s.gpte.Some? && s.Marked(b, s.gpte.value) }

  /** The hook is set and both pointers speak of the page. */
  predicate Aimed(s: State, address: nat) {
    s.hook && s.gpte == Some(PageOf(address)) && PageOf(s.gptr) == PageOf(address)
  }

  /** Only the page the module points at can be marked, and then the hook will know it. */
  ghost predicate Inv(b: Bits, s: State) {
    && s.Valid() && !s.crashed && s.bad == 0
    && forall page :: s.Marked(b, page) ==> s.hook && s.gpte == Some(page) && PageOf(s.gptr) == page
  }

  /** Bit 50 of a page is set by arming it, and cleared by its first fault or by closing; nothing else moves it. */
  lemma MarkMoves(b: Bits, s: State, e: Event, page: nat)
    requires b.Lawful()
    requires Inv(b, s) && Careful(b, s, e)
    ensures Step(b, s, e).Marked(b, page) <==>
      (e.Read? && page == PageOf(s.gptr))
      || (s.Marked(b, page) && !e.Release? && !(e.Access? && PageOf(e.address) == page && b.present(s.ptes[page])))
  {
    assert s.Marked(b, page) ==> s.gpte == Some(page);
    if page in s.ptes { assert b.LawfulAt(s.ptes[page]); }
    if e.Access? {
      assert b.LawfulAt(e.after);
      assert s.Marked(b, PageOf(e.address)) ==> Aimed(s, e.address);
      assert s.Trips(b, e.address) ==> s.Marked(b, PageOf(e.address));
    }
  }

  /** A careful step keeps the invariant; a fault uses up an arming. */
  lemma CarefulStep(b: Bits, s: State, e: Event)
    requires b.Lawful()
    requires Inv(b, s) && Careful(b, s, e)
    ensures Inv(b, Step(b, s, e))
    ensures Step(b, s, e).faults + (if Armed(b, Step(b, s, e)) then 1 else 0)
      <= s.faults + (if Armed(b, s) then 1 else 0) + (if e.Read? then 1 else 0)
  {
    forall page { MarkMoves(b, s, e, page); }
    if e.Access? { assert s.Trips(b, e.address) ==> s.Marked(b, PageOf(e.address)); }
  }

  function Armings(ev: seq<Event>): nat {
    if ev == [] then 0 else Armings(ev[..|ev| - 1]) + if ev[|ev| - 1].Read? then 1 else 0
  }

  /**
   * Over every careful run: no reserved-bit fault ends in pgtable_bad, there is at most one for
   * each arming, and at any time at most the page last armed is marked.
   */
  lemma {:induction false} OneFaultPerArming(b: Bits, s: State, ev: seq<Event>)
    requires b.Lawful()
    requires Inv(b, s) && !Armed(b, s) && CarefulRun(b, s, ev)
    ensures Inv(b, Exec(b, s, ev))
    ensures Exec(b, s, ev).faults + (if Armed(b, Exec(b, s, ev)) then 1 else 0) <= s.faults + Armings(ev)
  {
    if ev != [] {
      var rest := ev[..|ev| - 1];
      forall n | 0 <= n < |rest|
        ensures Careful(b, Exec(b, s, rest[..n]), rest[n])
      {
        assert rest[..n] == ev[..n];
      }
      OneFaultPerArming(b, s, rest);
      assert Careful(b, Exec(b, s, rest), ev[|ev| - 1]);
      CarefulStep(b, Exec(b, s, rest), ev[|ev| - 1]);
    }
  }

  // ----- careful use, each access tried again after a fault -----

  /** An access, tried again if the first attempt faults. */
  function Touch(b: Bits, s: State, address: nat, after: bv64): (s': State)
    requires s.Valid()
    ensures s'.Valid()
  {
    var s1 := Step(b, s, Access(address, after));
    if s.Trips(b, address) then Step(b, s1, Access(address, after)) else s1
  }

  function Serve(b: Bits, s: State, e: Event): (s': State)
    requires s.Valid()
    ensures s'.Valid()
  {
    if e.Access? then Touch(b, s, e.address, e.after) else Step(b, s, e)
  }

  function ServeAll(b: Bits, s: State, ev: seq<Event>): (s': State)
    requires s.Valid()
    ensures s'.Valid()
  {
    if ev == [] then s else Serve(b, ServeAll(b, s, ev[..|ev| - 1]), ev[|ev| - 1])
  }

  function Accesses(ev: seq<Event>): seq<(nat, bv64)> {
    if ev == [] then []
    else
      var (rest, e) := (ev[..|ev| - 1], ev[|ev| - 1]);
      if e.Access? then Accesses(rest) + [(e.address, e.after)] else Accesses(rest)
  }

  ghost predicate CarefullyServed(b: Bits, s: State, ev: seq<Event>)
    requires s.Valid()
  {
    forall n :: 0 <= n < |ev| ==> Careful(b, ServeAll(b, s, ev[..n]), ev[n])
  }

  /** The second attempt finds the mark gone. */
  lemma SecondAttempt(b: Bits, s: State, address: nat, after: bv64)
    requires b.Lawful()
    requires Inv(b, s) && s.Trips(b, address)
    ensures !Step(b, s, Access(address, after)).Trips(b, address)
  {
    assert s.Marked(b, PageOf(address));
    assert b.LawfulAt(s.ptes[PageOf(address)]);
  }

  /** What one event does, faults and second attempts included. */
  lemma Served(b: Bits, s: State, e: Event)
    requires b.Lawful()
    requires Inv(b, s) && Careful(b, s, e)
    ensures Inv(b, Serve(b, s, e))
    ensures Clear(b, Serve(b, s, e).ptes)
      == if e.Access? then Plain(b, Clear(b, s.ptes), e.address, e.after) else Clear(b, s.ptes)
    ensures Serve(b, s, e).faults + (if Armed(b, Serve(b, s, e)) then 1 else 0)
      <= s.faults + (if Armed(b, s) then 1 else 0) + (if e.Read? then 1 else 0)
  {
    CarefulStep(b, s, e);
    StepCleared(b, s, e);
    if e.Access? && s.Trips(b, e.address) {
      SecondAttempt(b, s, e.address, e.after);
      CarefulStep(b, Step(b, s, e), e);
      StepCleared(b, Step(b, s, e), e);
    }
  }

  /**
   * Over every careful run, however many sessions it holds, the tables are but for bit 50 what
   * its accesses alone make of them, every one of them completed, with at most one fault for each arming.
   */
  lemma {:induction false} Invisible(b: Bits, s: State, ev: seq<Event>)
    requires b.Lawful()
    requires Inv(b, s) && !Armed(b, s) && CarefullyServed(b, s, ev)
    ensures Inv(b, ServeAll(b, s, ev))
    ensures Clear(b, ServeAll(b, s, ev).ptes) == PlainAll(b, Clear(b, s.ptes), Accesses(ev))
    ensures ServeAll(b, s, ev).faults + (if Armed(b, ServeAll(b, s, ev)) then 1 else 0) <= s.faults + Armings(ev)
  {
    if ev != [] {
      var rest, e := ev[..|ev| - 1], ev[|ev| - 1];
      forall n | 0 <= n < |rest|
        ensures Careful(b, ServeAll(b, s, rest[..n]), rest[n])
      {
        assert rest[..n] == ev[..n];
      }
      Invisible(b, s, rest);
      assert Careful(b, ServeAll(b, s, rest), e);
      Served(b, ServeAll(b, s, rest), e);
      if e.Access? { Extended(b, Accesses(rest), e.address, e.after, Clear(b, s.ptes)); }
    }
  }

  lemma NothingMarked(b: Bits, ptes: Ptes)
    requires b.Lawful()
    requires forall page :: page in ptes ==> !b.marked(ptes[page])
    ensures Clear(b, ptes) == ptes
  {
    forall page | page in ptes
      ensures b.disarm(ptes[page]) == ptes[page]
    {
      assert b.LawfulAt(ptes[page]);
    }
  }

  lemma Unmarked(b: Bits, s: State)
    requires b.Lawful()
    requires Inv(b, s) && !Armed(b, s)
    ensures Clear(b, s.ptes) == s.ptes
  {
    forall page | page in s.ptes
      ensures !b.marked(s.ptes[page])
    {
      assert !s.Marked(b, page);
    }
    NothingMarked(b, s.ptes);
  }

  /** With nothing armed at either end there is no difference at all. */
  lemma NothingLeft(b: Bits, s: State, ev: seq<Event>)
    requires b.Lawful()
    requires Inv(b, s) && !Armed(b, s) && CarefullyServed(b, s, ev) && !Armed(b, ServeAll(b, s, ev))
    ensures ServeAll(b, s, ev).ptes == PlainAll(b, s.ptes, Accesses(ev))
  {
    var t := ServeAll(b, s, ev);
    Invisible(b, s, ev);
    Unmarked(b, s);
    Unmarked(b, t);
  }

  // ----- when a fault is resolved, and when the access goes through -----

  /** The hook resolves a reserved-bit fault exactly when it points at the page that faulted. */
  lemma ResolvesExactly(b: Bits, s: State, address: nat, after: bv64)
    requires b.Lawful()
    requires s.Valid() && s.Trips(b, address)
    ensures Step(b, s, Access(address, after)).bad == s.bad
      <==> s.hook && s.gpte.Some? && PageOf(s.gptr) == PageOf(address)
  {}

  /** Only then does the next attempt go through. */
  lemma GoesThrough(b: Bits, s: State, address: nat, after: bv64)
    requires b.Lawful()
    requires s.Valid() && s.Trips(b, address)
    ensures !Step(b, s, Access(address, after)).Trips(b, address) <==> Aimed(s, address)
  {
    if s.gpte.Some? { assert b.LawfulAt(s.ptes[s.gpte.value]); }
  }

  /** The access is attempted `n` times. */
  function Attempts(b: Bits, s: State, address: nat, after: bv64, n: nat): (s': State)
    requires s.Valid()
    ensures s'.Valid()
  {
    if n == 0 then s else Step(b, Attempts(b, s, address, after, n - 1), Access(address, after))
  }

  /** Without it every attempt is a fault, and one that ends in pgtable_bad unless the hook knows the page. */
  lemma {:induction false} KeepsFaulting(b: Bits, s: State, address: nat, after: bv64, n: nat)
    requires b.Lawful()
    requires s.Valid() && s.Trips(b, address) && !Aimed(s, address)
    ensures var t := Attempts(b, s, address, after, n);
      && t.Trips(b, address) && t.faults == s.faults + n && (t.hook, t.gptr, t.gpte) == (s.hook, s.gptr, s.gpte)
      && t.bad == s.bad + if s.hook && s.gpte.Some? && PageOf(s.gptr) == PageOf(address) then 0 else n
  {
    if n > 0 {
      KeepsFaulting(b, s, address, after, n - 1);
      GoesThrough(b, Attempts(b, s, address, after, n - 1), address, after);
    }
  }

  /** However often it is tried, an access that faults goes through exactly if the module is aimed at its page. */
  lemma GoesThroughAtLast(b: Bits, s: State, address: nat, after: bv64)
    requires b.Lawful()
    requires s.Valid() && s.Trips(b, address)
    ensures (exists n: nat :: !Attempts(b, s, address, after, n).Trips(b, address)) <==> Aimed(s, address)
  {
    if Aimed(s, address) {
      GoesThrough(b, s, address, after);
      assert Attempts(b, s, address, after, 0) == s;
      assert !Attempts(b, s, address, after, 1).Trips(b, address);
    } else {
      forall n: nat
        ensures Attempts(b, s, address, after, n).Trips(b, address)
      {
        KeepsFaulting(b, s, address, after, n);
      }
    }
  }

  /** Accesses that leave their pages present. */
  predicate OnlyAccesses(b: Bits, ev: seq<Event>) {
    forall i :: 0 <= i < |ev| ==> ev[i].Access? && b.present(ev[i].after)
  }

  predicate Visits(ev: seq<Event>, page: nat) {
    exists i :: 0 <= i < |ev| && ev[i].Access? && PageOf(ev[i].address) == page
  }

  /** The page `gptr` points to is visited while it trips: the hook clears the mark of `gpte`. */
  predicate Fires(b: Bits, s: State, ev: seq<Event>) {
    s.hook && s.gpte.Some? && s.Trips(b, s.gptr) && Visits(ev, PageOf(s.gptr))
  }

  lemma VisitsMore(ev: seq<Event>, e: Event, page: nat)
    ensures Visits(ev + [e], page) <==> Visits(ev, page) || (e.Access? && PageOf(e.address) == page)
  {
    assert (ev + [e])[|ev|] == e;
    assert forall i :: 0 <= i < |ev| ==> (ev + [e])[i] == ev[i];
  }

  lemma DisarmKeeps(b: Bits, s: State, p: nat, page: nat)
    requires b.Lawful()
    requires p in s.ptes && page in s.ptes
    ensures b.present(s.DisarmAt(b, p).ptes[page]) == b.present(s.ptes[page])
  {
    if p == page { assert b.LawfulAt(s.ptes[page]); }
  }

  lemma AccessKeeps(b: Bits, s: State, e: Event, page: nat)
    requires b.Lawful()
    requires s.Valid() && e.Access? && b.present(e.after) && page in s.ptes
    ensures b.present(Step(b, s, e).ptes[page]) == b.present(s.ptes[page])
  {
    if s.Trips(b, e.address) {
      if s.gpte.Some? { DisarmKeeps(b, s, s.gpte.value, page); }
    } else {
      assert b.LawfulAt(e.after);
    }
  }

  lemma AccessAims(b: Bits, s: State, e: Event)
    requires b.Lawful()
    requires s.Valid() && e.Access?
    ensures (Step(b, s, e).hook, Step(b, s, e).gptr, Step(b, s, e).gpte) == (s.hook, s.gptr, s.gpte)
  {}

  /** One access: which marks it moves. */
  lemma AccessMoves(b: Bits, s: State, e: Event, page: nat)
    requires b.Lawful()
    requires s.Valid() && e.Access?
    ensures Step(b, s, e).Marked(b, page)
      <==> s.Marked(b, page)
           && !(s.hook && s.gpte == Some(page) && s.Trips(b, s.gptr) && PageOf(e.address) == PageOf(s.gptr))
  {
    assert b.LawfulAt(e.after);
    if s.gpte.Some? { assert b.LawfulAt(s.ptes[s.gpte.value]); }
  }

  /** Between two uses of the device: exactly the mark of `gpte` goes, and exactly if the hook fires. */
  lemma {:induction false} MarksBetweenUses(b: Bits, s: State, ev: seq<Event>, page: nat)
    requires b.Lawful()
    requires s.Valid() && OnlyAccesses(b, ev)
    ensures var t := Exec(b, s, ev);
      && (t.hook, t.gptr, t.gpte) == (s.hook, s.gptr, s.gpte)
      && (page in s.ptes ==> b.present(t.ptes[page]) == b.present(s.ptes[page]))
      && (t.Marked(b, page) <==> s.Marked(b, page) && !(Fires(b, s, ev) && s.gpte == Some(page)))
  {
    if ev != [] {
      var rest, e, q := ev[..|ev| - 1], ev[|ev| - 1], PageOf(s.gptr);
      assert ev == rest + [e];
      MarksBetweenUses(b, s, rest, page);
      MarksBetweenUses(b, s, rest, q);
      AccessAims(b, Exec(b, s, rest), e);
      if page in s.ptes { AccessKeeps(b, Exec(b, s, rest), e, page); }
      AccessMoves(b, Exec(b, s, rest), e, page);
      VisitsMore(rest, e, q);
    }
  }

  // ----- what a session leaves behind -----

  /** Some access reaches the page, and it is present. */
  predicate Reached(b: Bits, ptes: Ptes, page: nat, accesses: seq<(nat, bv64)>)
    requires page in ptes
  {
    b.present(ptes[page]) && exists i :: 0 <= i < |accesses| && PageOf(accesses[i].0) == page
  }

  lemma {:induction false} PlainKeys(b: Bits, ptes: Ptes, accesses: seq<(nat, bv64)>)
    requires b.Lawful()
    ensures PlainAll(b, ptes, accesses).Keys == ptes.Keys
  {
    if accesses != [] { PlainKeys(b, ptes, accesses[..|accesses| - 1]); }
  }

  /** Accesses that leave the present bit alone change neither it nor the mark. */
  lemma {:induction false} PlainKeeps(b: Bits, ptes: Ptes, accesses: seq<(nat, bv64)>, page: nat)
    requires b.Lawful()
    requires page in ptes && forall i :: 0 <= i < |accesses| ==> b.present(accesses[i].1)
    ensures PlainAll(b, ptes, accesses).Keys == ptes.Keys
    ensures b.marked(PlainAll(b, ptes, accesses)[page]) ==> b.marked(ptes[page])
    ensures b.present(PlainAll(b, ptes, accesses)[page]) == b.present(ptes[page])
  {
    if accesses != [] {
      PlainKeeps(b, ptes, accesses[..|accesses| - 1], page);
      assert b.LawfulAt(accesses[|accesses| - 1].1);
    }
  }

  lemma ReachedMore(b: Bits, ptes: Ptes, page: nat, accesses: seq<(nat, bv64)>, address: nat, after: bv64)
    requires b.Lawful()
    requires page in ptes
    ensures Reached(b, ptes, page, accesses + [(address, after)])
      <==> Reached(b, ptes, page, accesses) || (b.present(ptes[page]) && PageOf(address) == page)
  {
    var more := accesses + [(address, after)];
    assert more[|accesses|] == (address, after);
    assert forall i :: 0 <= i < |accesses| ==> more[i] == accesses[i];
  }

  /** The tables in the middle of a session: as without the module, but for the mark until the page is reached. */
  function Tracked(b: Bits, ptes0: Ptes, page: nat, accesses: seq<(nat, bv64)>): Ptes
    requires page in ptes0
  {
    var plain := PlainAll(b, ptes0, accesses);
    if page !in plain || Reached(b, ptes0, page, accesses) then plain else plain[page := b.arm(plain[page])]
  }

  predicate Clean(b: Bits, s: State, ptr: nat, accesses: seq<(nat, bv64)>) {
    && s.Valid() && PageOf(ptr) in s.ptes && (forall page :: page in s.ptes ==> !b.marked(s.ptes[page]))
    && forall i :: 0 <= i < |accesses| ==> b.present(accesses[i].1)
  }

  /** The state in the middle of a session that began in `s`. */
  function MidSession(b: Bits, s: State, ptr: nat, accesses: seq<(nat, bv64)>): State
    requires PageOf(ptr) in s.ptes
  {
    State(Tracked(b, s.ptes, PageOf(ptr), accesses), ptr, Some(PageOf(ptr)), true,
          s.faults + if Reached(b, s.ptes, PageOf(ptr), accesses) then 1 else 0, s.bad, s.crashed)
  }

  lemma Begins(b: Bits, s: State, ptr: nat)
    requires b.Lawful()
    requires Clean(b, s, ptr, [])
    ensures Step(b, Step(b, Step(b, s, Open), Write(ptr)), Read) == MidSession(b, s, ptr, [])
  {}

  /** An access while the module tracks a page: one fault if the page is marked, then it goes through. */
  lemma Tripped(b: Bits, s: State, address: nat, after: bv64)
    requires b.Lawful()
    requires s.Valid() && s.hook && s.gpte == Some(PageOf(s.gptr))
    requires forall page :: s.Marked(b, page) ==> page == PageOf(s.gptr)
    ensures Touch(b, s, address, after) == if s.Trips(b, address)
      then s.DisarmAt(b, PageOf(address)).(
        ptes := Plain(b, s.DisarmAt(b, PageOf(address)).ptes, address, after), faults := s.faults + 1)
      else s.(ptes := Plain(b, s.ptes, address, after))
  {
    if PageOf(address) in s.ptes { assert b.LawfulAt(s.ptes[PageOf(address)]); }
    assert s.Trips(b, address) ==> s.Marked(b, PageOf(address));
  }

  /** Marking a page commutes with using another. */
  lemma MarkThenUse(b: Bits, plain: Ptes, page: nat, address: nat, after: bv64)
    requires b.Lawful()
    requires page in plain && PageOf(address) != page
    ensures var used := Plain(b, plain, address, after);
      && page in used
      && Plain(b, plain[page := b.arm(plain[page])], address, after) == used[page := b.arm(used[page])]
  {
    var p, e := PageOf(address), b.arm(plain[page]);
    if p in plain { assert plain[page := e][p := b.disarm(after)] == plain[p := b.disarm(after)][page := e]; }
  }

  /** An absent page is not used, marked or not. */
  lemma MarkAbsent(b: Bits, plain: Ptes, page: nat, address: nat, after: bv64)
    requires b.Lawful()
    requires page in plain && PageOf(address) == page && !b.present(plain[page])
    ensures Plain(b, plain, address, after) == plain
    ensures Plain(b, plain[page := b.arm(plain[page])], address, after) == plain[page := b.arm(plain[page])]
  {
    assert b.LawfulAt(plain[page]);
  }

  lemma MarkAndClear(b: Bits, plain: Ptes, page: nat)
    requires b.Lawful()
    requires page in plain && !b.marked(plain[page])
    ensures var marked := plain[page := b.arm(plain[page])];
      && marked[page := b.disarm(marked[page])] == plain && plain[page := b.disarm(plain[page])] == plain
  {
    assert b.LawfulAt(plain[page]);
    assert b.LawfulAt(plain[page]);
  }

  lemma TrackedMore(b: Bits, ptes: Ptes, page: nat, accesses: seq<(nat, bv64)>, address: nat, after: bv64)
    requires b.Lawful()
    requires page in ptes && page in PlainAll(b, ptes, accesses) && !b.marked(PlainAll(b, ptes, accesses)[page])
    requires b.present(PlainAll(b, ptes, accesses)[page]) == b.present(ptes[page])
    ensures var now, next := Tracked(b, ptes, page, accesses), Tracked(b, ptes, page, accesses + [(address, after)]);
      if PageOf(address) == page && b.present(ptes[page])
      then next == Plain(b, now[page := b.disarm(now[page])], address, after)
      else next == Plain(b, now, address, after)
  {
    var more, plain := accesses + [(address, after)], PlainAll(b, ptes, accesses);
    assert more[..|accesses|] == accesses && more[|accesses|] == (address, after);
    assert PlainAll(b, ptes, more) == Plain(b, plain, address, after);
    ReachedMore(b, ptes, page, accesses, address, after);
    if PageOf(address) != page {
      MarkThenUse(b, plain, page, address, after);
    } else if !b.present(ptes[page]) {
      MarkAbsent(b, plain, page, address, after);
    }
    MarkAndClear(b, plain, page);
  }

  /** In the middle of a session the page is marked until it is reached, and no other is. */
  lemma MidMarked(b: Bits, s: State, ptr: nat, accesses: seq<(nat, bv64)>, p: nat)
    requires b.Lawful()
    requires Clean(b, s, ptr, accesses)
    ensures MidSession(b, s, ptr, accesses).Valid()
    ensures MidSession(b, s, ptr, accesses).Marked(b, p)
      <==> p == PageOf(ptr) && !Reached(b, s.ptes, PageOf(ptr), accesses)
  {
    var page, plain := PageOf(ptr), PlainAll(b, s.ptes, accesses);
    PlainKeeps(b, s.ptes, accesses, page);
    assert b.LawfulAt(plain[page]);
    if p in s.ptes { PlainKeeps(b, s.ptes, accesses, p); }
    if p !in s.ptes { PlainKeys(b, s.ptes, accesses); }
  }

  lemma MidPresent(b: Bits, s: State, ptr: nat, accesses: seq<(nat, bv64)>)
    requires b.Lawful()
    requires Clean(b, s, ptr, accesses)
    ensures var mid := MidSession(b, s, ptr, accesses);
      PageOf(ptr) in mid.ptes && b.present(mid.ptes[PageOf(ptr)]) == b.present(s.ptes[PageOf(ptr)])
  {
    PlainKeeps(b, s.ptes, accesses, PageOf(ptr));
    assert b.LawfulAt(PlainAll(b, s.ptes, accesses)[PageOf(ptr)]);
  }

  /** One more access of a session. */
  lemma Touched(b: Bits, s: State, ptr: nat, accesses: seq<(nat, bv64)>, address: nat, after: bv64)
    requires b.Lawful()
    requires Clean(b, s, ptr, accesses)
    ensures MidSession(b, s, ptr, accesses).Valid()
    ensures Touch(b, MidSession(b, s, ptr, accesses), address, after)
      == MidSession(b, s, ptr, accesses + [(address, after)])
  {
    var page, mid := PageOf(ptr), MidSession(b, s, ptr, accesses);
    forall p { MidMarked(b, s, ptr, accesses, p); }
    MidPresent(b, s, ptr, accesses);
    Tripped(b, mid, address, after);
    assert mid.Trips(b, address)
      <==> PageOf(address) == page && !Reached(b, s.ptes, page, accesses) && b.present(s.ptes[page]);
    ReachedMore(b, s.ptes, page, accesses, address, after);
    PlainKeeps(b, s.ptes, accesses, page);
    TrackedMore(b, s.ptes, page, accesses, address, after);
    if PageOf(address) == page && Reached(b, s.ptes, page, accesses) { MarkAndClear(b, mid.ptes, page); }
  }

  /** Closing leaves exactly what the accesses made. */
  lemma Ends(b: Bits, s: State, ptr: nat, accesses: seq<(nat, bv64)>)
    requires b.Lawful()
    requires Clean(b, s, ptr, accesses)
    ensures MidSession(b, s, ptr, accesses).Valid()
    ensures Step(b, MidSession(b, s, ptr, accesses), Release)
      == MidSession(b, s, ptr, accesses).(ptes := PlainAll(b, s.ptes, accesses), hook := false)
  {
    PlainKeeps(b, s.ptes, accesses, PageOf(ptr));
    MidMarked(b, s, ptr, accesses, PageOf(ptr));
    MarkAndClear(b, PlainAll(b, s.ptes, accesses), PageOf(ptr));
  }

  // ----- careless use -----

  /** The pointer written last. */
  function Pointer(gptr: nat, ev: seq<Event>): nat {
    if ev == [] then gptr
    else if ev[|ev| - 1].Write? then ev[|ev| - 1].ptr else Pointer(gptr, ev[..|ev| - 1])
  }

  predicate NeverRead(ev: seq<Event>) { forall m :: 0 <= m < |ev| ==> !ev[m].Read? }

  /** The next event is a read for an address without an entry, or a close that no read has come before. */
  predicate Misuse(s: State, ev: seq<Event>, e: Event) {
    (e.Read? && PageOf(Pointer(s.gptr, ev)) !in s.ptes) || (e.Release? && NeverRead(ev))
  }

  predicate Misused(s: State, ev: seq<Event>) { exists n :: 0 <= n < |ev| && Misuse(s, ev[..n], ev[n]) }

  lemma MisusedMore(s: State, ev: seq<Event>, e: Event)
    ensures Misused(s, ev + [e]) <==> Misused(s, ev) || Misuse(s, ev, e)
  {
    assert (ev + [e])[..|ev|] == ev && (ev + [e])[|ev|] == e;
    assert forall n :: 0 <= n < |ev| ==> (ev + [e])[..n] == ev[..n] && (ev + [e])[n] == ev[n];
  }

  lemma ReadMore(ev: seq<Event>, e: Event)
    ensures NeverRead(ev + [e]) <==> NeverRead(ev) && !e.Read?
  {
    assert (ev + [e])[|ev|] == e;
    assert forall n :: 0 <= n < |ev| ==> (ev + [e])[n] == ev[n];
  }

  /** What the module's pointers are after a run from a newly loaded module. */
  predicate Tells(b: Bits, s: State, ev: seq<Event>)
    requires s.Valid()
  {
    var t := Exec(b, s, ev);
    && t.gptr == Pointer(s.gptr, ev)
    && (t.crashed <==> Misused(s, ev))
    && (NeverRead(ev) ==> t.gpte.None?)
    && (t.gpte.None? && !t.crashed ==> NeverRead(ev))
  }

  /** What one event does to the pointers and the null dereference. */
  lemma PointersMove(b: Bits, t: State, e: Event)
    requires t.Valid()
    ensures Step(b, t, e).gptr == if e.Write? then e.ptr else t.gptr
    ensures Step(b, t, e).gpte.None? <==> if e.Read? then PageOf(t.gptr) !in t.ptes else t.gpte.None?
    ensures Step(b, t, e).crashed
      <==> t.crashed || (e.Read? && PageOf(t.gptr) !in t.ptes) || (e.Release? && t.gpte.None?)
  {}

  lemma TellsMore(b: Bits, s: State, ev: seq<Event>, e: Event)
    requires s.Valid() && Tells(b, s, ev) && Exec(b, s, ev + [e]) == Step(b, Exec(b, s, ev), e)
    ensures Tells(b, s, ev + [e])
  {
    MisusedMore(s, ev, e);
    ReadMore(ev, e);
    PointersMove(b, Exec(b, s, ev), e);
    assert (ev + [e])[..|ev|] == ev && (ev + [e])[|ev|] == e;
  }

  /**
   * Over any run of a newly loaded module, careful or not, a null `gpte` is used exactly if at some
   * point a page without an entry is read for, or the device is closed before it has ever been read.
   */
  lemma {:induction false} CrashedExactly(b: Bits, s: State, ev: seq<Event>)
    requires s.Valid() && s.gpte.None? && !s.crashed
    ensures Tells(b, s, ev)
    ensures Exec(b, s, ev).crashed <==> Misused(s, ev)
  {
    if ev != [] {
      var rest, e := ev[..|ev| - 1], ev[|ev| - 1];
      CrashedExactly(b, s, rest);
      assert ev == rest + [e];
      TellsMore(b, s, rest, e);
    }
  }

  /** A second write while a page is armed: the hook no longer knows the page. */
  lemma SecondWrite(b: Bits, s: State, a: nat, other: nat, after: bv64)
    requires b.Lawful()
    requires Clean(b, s, a, []) && b.present(s.ptes[PageOf(a)]) && PageOf(a) != PageOf(other)
    ensures Step(b, Step(b, MidSession(b, s, a, []), Write(other)), Access(a, after)).bad == s.bad + 1
  {
    assert b.LawfulAt(s.ptes[PageOf(a)]);
    assert Step(b, MidSession(b, s, a, []), Write(other)).Trips(b, a);
  }

  /** Two users of the device: when one closes, the other's arming is left without a hook. */
  lemma ClosedByAnother(b: Bits, s: State, a: nat, after: bv64)
    requires b.Lawful()
    requires Clean(b, s, a, []) && b.present(s.ptes[PageOf(a)])
    ensures Step(b, Step(b, Step(b, MidSession(b, s, a, []), Release), Read), Access(a, after)).bad == s.bad + 1
  {
    assert b.LawfulAt(s.ptes[PageOf(a)]) && b.LawfulAt(b.arm(s.ptes[PageOf(a)]));
    assert b.LawfulAt(b.disarm(b.arm(s.ptes[PageOf(a)])));
    assert Step(b, Step(b, MidSession(b, s, a, []), Release), Read).Trips(b, a);
  }

  /** Armed on `a`, then on `other`, then pointed back at `a`. */
  function BothArmed(b: Bits, s: State, a: nat, other: nat): State
    requires Clean(b, s, a, []) && PageOf(other) in s.ptes
  {
    Step(b, Step(b, Step(b, MidSession(b, s, a, []), Write(other)), Read), Write(a))
  }

  /** Then the hook clears the wrong entry, and the access faults for ever. */
  lemma FaultsForEver(b: Bits, s: State, a: nat, other: nat, after: bv64, n: nat)
    requires b.Lawful()
    requires Clean(b, s, a, []) && b.present(s.ptes[PageOf(a)]) && PageOf(other) in s.ptes && PageOf(a) != PageOf(other)
    ensures BothArmed(b, s, a, other).Valid()
    ensures var t := Attempts(b, BothArmed(b, s, a, other), a, after, n);
      t.Trips(b, a) && t.faults == s.faults + n && t.bad == s.bad
  {
    assert b.LawfulAt(s.ptes[PageOf(a)]);
    KeepsFaulting(b, BothArmed(b, s, a, other), a, after, n);
  }

  // ----- the code -----

  class Demo {
    var ptes: Ptes
    var gptr: nat
    var gpte: Option<nat>
    var hook: bool
    var faults: nat
    var bad: nat
    var crashed: bool
    ghost const bits: Bits

    ghost predicate Ok()
      reads this
    {
      bits.IsWord() && View().Valid()
    }

    /** The module as it is loaded, beside tables that are there already. */
    constructor (tables: Ptes)
      ensures Ok() && View() == State(tables, 0, None, false, 0, 0, false)
    {
      ptes, gptr, gpte, hook, faults, bad, crashed := tables, 0, None, false, 0, 0, false;
      bits := WORD;
      WordIsWord();
    }

    function View(): State
      reads this
    {
      State(ptes, gptr, gpte, hook, faults, bad, crashed)
    }

    method DemoOpen()
      requires Ok()
      modifies this
      ensures View() == Step(bits, old(View()), Open)
    {
      hook := true;
    }

    method DemoWrite(ptr: nat)
      requires Ok()
      modifies this
      ensures View() == Step(bits, old(View()), Write(ptr))
    {
      gptr := ptr;
    }

    method DemoRead()
      requires Ok()
      modifies this
      ensures View() == Step(bits, old(View()), Read)
    {
      gpte := if PageOf(gptr) in ptes then Some(PageOf(gptr)) else None;
      if gpte.None? {
        crashed := true;
        return;
      }
      assert bits.IsWordAt(ptes[gpte.value]);
      ptes := ptes[gpte.value := ptes[gpte.value] | MARK];
    }

    method DemoRelease()
      requires Ok()
      modifies this
      ensures View() == Step(bits, old(View()), Release)
    {
      hook := false;
      if gpte.None? {
        crashed := true;
        return;
      }
      assert bits.IsWordAt(ptes[gpte.value]);
      ptes := ptes[gpte.value := ptes[gpte.value] & !MARK];
    }

    /** `fault_hook`. */
    method FaultHook(address: nat) returns (r: int)
      requires Ok()
      modifies this`ptes
      ensures r == if PageOf(gptr) == PageOf(address) && gpte.Some? then 0 else -1
      ensures View() == if r == 0 then old(View()).DisarmAt(bits, gpte.value) else old(View())
      ensures r == 0 <==> gptr / 4096 == address / 4096 && gpte.Some?
    {
      if PageOf(gptr) == PageOf(address) && gpte.Some? {
        assert bits.IsWordAt(ptes[gpte.value]);
        ptes := ptes[gpte.value := ptes[gpte.value] & !MARK];
        return 0;
      }
      return -1;
    }

    /** One attempt of an access: the hardware walk, and the handler's branch for a reserved bit. */
    method Attempt(address: nat, after: bv64) returns (again: bool)
      requires Ok()
      modifies this
      ensures View() == Step(bits, old(View()), Access(address, after)) && again == old(View()).Trips(bits, address)
    {
      var page := PageOf(address);
      if page !in ptes {
        return false;
      }
      assert bits.IsWordAt(ptes[page]) && bits.IsWordAt(after);
      if ptes[page] & PRESENT == 0 {
        return false;
      }
      again := ptes[page] & MARK != 0;
      if again {
        faults := faults + 1;
        var r := -1;
        if hook {
          r := FaultHook(address);
        }
        if r != 0 {
          bad := bad + 1;
        }
      } else {
        ptes := ptes[page := after & !MARK];
      }
    }

    /** An access: the instruction starts again after a fault. */
    method Use(address: nat, after: bv64)
      requires Ok()
      modifies this
      ensures View() == Touch(bits, old(View()), address, after)
    {
      var again := Attempt(address, after);
      if again {
        again := Attempt(address, after);
      }
    }

    /**
     * A whole session: open, one write, one read, any accesses, each tried again after a fault,
     * close. At the end the tables are what the accesses alone would have made of them, and one
     * reserved-bit fault has been taken if any access reached the page, none otherwise.
     */
    method Session(ptr: nat, accesses: seq<(nat, bv64)>)
      requires Ok() && Clean(bits, View(), ptr, accesses)
      modifies this
      ensures ptes == PlainAll(bits, old(ptes), accesses) && bad == old(bad) && crashed == old(crashed)
      ensures faults == old(faults) + if Reached(bits, old(ptes), PageOf(ptr), accesses) then 1 else 0
    {
      ghost var s := View();
      WordLawful(bits);
      DemoOpen();
      DemoWrite(ptr);
      DemoRead();
      Begins(bits, s, ptr);
      var i := 0;
      while i < |accesses|
        invariant 0 <= i <= |accesses| && View() == MidSession(bits, s, ptr, accesses[..i])
      {
        var (address, after) := accesses[i];
        Touched(bits, s, ptr, accesses[..i], address, after);
        assert accesses[..i] + [accesses[i]] == accesses[..i + 1];
        Use(address, after);
        i := i + 1;
      }
      assert accesses[..i] == accesses;
      Ends(bits, s, ptr, accesses);
      DemoRelease();
    }
  }
}
