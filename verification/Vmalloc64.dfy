/**
 * The 64-bit `vmalloc_fault`: a process's top-level page table is filled in lazily from the
 * reference table, with four or with five levels.
 */
module Vmalloc64 {
  import opened Types

  // ----- page tables -----

  /** An entry as its level reads it; `Absent` is a last-level entry without the present bit. */
  datatype Entry = Empty | Next(table: int) | Huge(page: int) | Leaf(page: int) | Absent

  /** Level 5 down to level 1 are pgd, p4d, pud, pmd and pte; without level 5 the pgd is folded into the p4d. */
  datatype Table = Table(level: int, entries: seq<Entry>)

  type Tables = map<int, Table>

  const ENTRIES: nat := 512

  /** What one entry of a level maps. */
  function Span(level: int): (n: nat)
    ensures n > 0
  {
    if level == 5 then 0x1_0000_0000_0000
    else if level == 4 then 0x80_0000_0000
    else if level == 3 then 0x4000_0000
    else if level == 2 then 0x20_0000
    else 0x1000
  }

  function Index(address: nat, level: int): (i: nat)
    ensures i < ENTRIES
  {
    address / Span(level) % ENTRIES
  }

  predicate Typed(mem: Tables, level: int, e: Entry) {
    match e
    case Empty => true
    case Next(t) => level > 1 && t in mem && mem[t].level == level - 1
    case Huge(_) => level == 2 || level == 3
    case Leaf(_) => level == 1
    case Absent => level == 1
  }

  ghost predicate Shaped(mem: Tables) {
    forall t :: t in mem ==>
      && 1 <= mem[t].level <= 5 && |mem[t].entries| == ENTRIES
      && forall i :: 0 <= i < ENTRIES ==> Typed(mem, mem[t].level, mem[t].entries[i])
  }

  /** Where the hardware ends up from an entry of a level: the page, and the level that maps it. */
  ghost function Walk(mem: Tables, e: Entry, level: int, address: nat): Option<(int, int)>
    requires Shaped(mem) && Typed(mem, level, e)
    decreases level
  {
    match e
    case Empty => None
    case Absent => None
    case Huge(page) => Some((page, level))
    case Leaf(page) => Some((page, level))
    case Next(t) => Walk(mem, mem[t].entries[Index(address, level - 1)], level - 1, address)
  }

  function Top(l5: bool): int { if l5 then 5 else 4 }

  predicate IsRoot(mem: Tables, l5: bool, t: int) {
    t in mem && mem[t].level == Top(l5) && |mem[t].entries| == ENTRIES
  }

  function EntryAt(mem: Tables, l5: bool, root: int, address: nat): Entry
    requires IsRoot(mem, l5, root)
  {
    mem[root].entries[Index(address, Top(l5))]
  }

  /** The walk of an address from the top. */
  ghost function Translate(mem: Tables, l5: bool, root: int, address: nat): Option<(int, int)>
    requires Shaped(mem) && IsRoot(mem, l5, root)
  {
    Walk(mem, EntryAt(mem, l5, root, address), Top(l5), address)
  }

  // ----- the same, entry by entry -----

  /** An entry of the table that another entry leads to. */
  function Below(mem: Tables, e: Entry, i: nat): Entry {
    if e.Next? && e.table in mem && i < |mem[e.table].entries| then mem[e.table].entries[i] else Empty
  }

  /** The entries on the way to an address, where there are any: nine bits of it choose among a table's. */
  function P4d(mem: Tables, l5: bool, root: int, address: nat): Entry
    requires IsRoot(mem, l5, root)
  {
    if !l5 then mem[root].entries[address / 0x80_0000_0000 % 512]
    else Below(mem, mem[root].entries[address / 0x1_0000_0000_0000 % 512], address / 0x80_0000_0000 % 512)
  }

  function Pud(mem: Tables, l5: bool, root: int, address: nat): Entry
    requires IsRoot(mem, l5, root)
  {
    Below(mem, P4d(mem, l5, root, address), address / 0x4000_0000 % 512)
  }

  function Pmd(mem: Tables, l5: bool, root: int, address: nat): Entry
    requires IsRoot(mem, l5, root)
  {
    Below(mem, Pud(mem, l5, root, address), address / 0x20_0000 % 512)
  }

  function Pte(mem: Tables, l5: bool, root: int, address: nat): Entry
    requires IsRoot(mem, l5, root)
  {
    Below(mem, Pmd(mem, l5, root, address), address / 0x1000 % 512)
  }

  /** The chain ends in a huge pud, a huge pmd or a page-table entry that is present. */
  predicate Mapped(mem: Tables, l5: bool, root: int, address: nat, page: int, level: int)
    requires IsRoot(mem, l5, root)
  {
    || (level == 3 && Pud(mem, l5, root, address) == Huge(page))
    || (level == 2 && Pmd(mem, l5, root, address) == Huge(page))
    || (level == 1 && Pte(mem, l5, root, address) == Leaf(page))
  }

  ghost predicate EndsInPage(mem: Tables, l5: bool, root: int, address: nat)
    requires IsRoot(mem, l5, root)
  {
    exists page, level :: Mapped(mem, l5, root, address, page, level)
  }

  lemma PudTyped(mem: Tables, l5: bool, root: int, address: nat)
    requires Shaped(mem) && IsRoot(mem, l5, root)
    ensures Typed(mem, 4, P4d(mem, l5, root, address)) && Typed(mem, 3, Pud(mem, l5, root, address))
    ensures Translate(mem, l5, root, address) == Walk(mem, Pud(mem, l5, root, address), 3, address)
  {
    var e := EntryAt(mem, l5, root, address);
    assert Typed(mem, Top(l5), e);
    if l5 && e.Next? { assert P4d(mem, l5, root, address) == mem[e.table].entries[Index(address, 4)]; }
    var d := P4d(mem, l5, root, address);
    assert Typed(mem, 4, d);
    if d.Next? { assert Pud(mem, l5, root, address) == mem[d.table].entries[Index(address, 3)]; }
  }

  lemma WalkFromPud(mem: Tables, l5: bool, root: int, address: nat, page: int, level: int)
    requires Shaped(mem) && IsRoot(mem, l5, root)
    ensures var e := Pud(mem, l5, root, address);
      Typed(mem, 3, e)
      && (Walk(mem, e, 3, address) == Some((page, level)) <==> Mapped(mem, l5, root, address, page, level))
  {
    var e := Pud(mem, l5, root, address);
    assert Typed(mem, Top(l5), EntryAt(mem, l5, root, address));
    PudTyped(mem, l5, root, address);
    if e.Next? {
      var d := Pmd(mem, l5, root, address);
      assert d == mem[e.table].entries[Index(address, 2)] && Typed(mem, 2, d);
      if d.Next? { assert Pte(mem, l5, root, address) == mem[d.table].entries[Index(address, 1)]; }
    }
  }

  /** The hardware walk ends where the chain does. */
  lemma ChainExactly(mem: Tables, l5: bool, root: int, address: nat, page: int, level: int)
    requires Shaped(mem) && IsRoot(mem, l5, root)
    ensures Translate(mem, l5, root, address) == Some((page, level)) <==> Mapped(mem, l5, root, address, page, level)
  {
    PudTyped(mem, l5, root, address);
    WalkFromPud(mem, l5, root, address, page, level);
  }

  // ----- changing an entry -----

  function SetEntry(mem: Tables, t: int, i: nat, e: Entry): Tables
    requires t in mem && i < |mem[t].entries|
  {
    mem[t := mem[t].(entries := mem[t].entries[i := e])]
  }

  /** Tables below a level are the same in both. */
  ghost predicate SameBelow(mem: Tables, mem': Tables, level: int) {
    forall t :: t in mem && mem[t].level < level ==> t in mem' && mem'[t] == mem[t]
  }

  /** A walk does not see changes at or above the level it starts from. */
  lemma {:induction false} WalkKept(mem: Tables, mem': Tables, e: Entry, level: int, address: nat)
    requires Shaped(mem) && Shaped(mem') && Typed(mem, level, e) && SameBelow(mem, mem', level)
    ensures Typed(mem', level, e) && Walk(mem', e, level, address) == Walk(mem, e, level, address)
    decreases level
  {
    if e.Next? {
      WalkKept(mem, mem', mem[e.table].entries[Index(address, level - 1)], level - 1, address);
    }
  }

  /** Filling in an entry with one of the right kind keeps the tables in shape. */
  lemma SetShaped(mem: Tables, t: int, i: nat, e: Entry)
    requires Shaped(mem) && t in mem && i < ENTRIES && Typed(mem, mem[t].level, e)
    ensures Shaped(SetEntry(mem, t, i, e)) && SameBelow(mem, SetEntry(mem, t, i, e), mem[t].level)
    ensures SetEntry(mem, t, i, e)[t].entries[i] == e
    ensures mem[t].entries[i] == e ==> SetEntry(mem, t, i, e) == mem
  {
    var mem' := SetEntry(mem, t, i, e);
    assert forall level, x :: Typed(mem, level, x) ==> Typed(mem', level, x);
    if mem[t].entries[i] == e {
      assert mem[t].entries[i := e] == mem[t].entries;
    }
  }

  // ----- the fault -----

  /** The machine: how many levels, the reference table, the vmalloc area. */
  datatype Layout = Layout(l5: bool, reference: int, start: nat, end: nat)

  datatype Result = Returns(value: int) | Bug

  /**
   * What a fault amounts to, whatever the number of levels: outside the area or without a
   * reference entry nothing; a conflicting entry is a bug; otherwise the entry is taken over
   * and the reference walk decides.
   */
  ghost function Fault(mem: Tables, l: Layout, root: int, address: nat): (Tables, Result)
    requires Shaped(mem) && IsRoot(mem, l.l5, root) && IsRoot(mem, l.l5, l.reference)
  {
    var own, ref := EntryAt(mem, l.l5, root, address), EntryAt(mem, l.l5, l.reference, address);
    if !(l.start <= address < l.end) || ref.Empty? then (mem, Returns(-1))
    else if !own.Empty? && own != ref then (mem, Bug)
    else (SetEntry(mem, root, Index(address, Top(l.l5)), ref),
          Returns(if Translate(mem, l.l5, l.reference, address).Some? then 0 else -1))
  }

  /** What the fault comes to, by the chains of the process and of the reference. */
  lemma FaultChains(mem: Tables, l: Layout, root: int, address: nat)
    requires Shaped(mem) && IsRoot(mem, l.l5, root) && IsRoot(mem, l.l5, l.reference)
    ensures var (mem', r) := Fault(mem, l, root, address);
      && Shaped(mem') && IsRoot(mem', l.l5, root) && IsRoot(mem', l.l5, l.reference)
      && (r == Returns(0) <==> l.start <= address < l.end && !r.Bug? && EndsInPage(mem, l.l5, l.reference, address))
      && (r == Returns(0) ==> forall page, level ::
           Mapped(mem', l.l5, root, address, page, level) <==> Mapped(mem, l.l5, l.reference, address, page, level))
  {
    var (mem', r) := Fault(mem, l, root, address);
    var i, ref := Index(address, Top(l.l5)), EntryAt(mem, l.l5, l.reference, address);
    SetShaped(mem, root, i, ref);
    WalkKept(mem, mem', ref, Top(l.l5), address);
    forall page, level
      ensures Translate(mem, l.l5, l.reference, address) == Some((page, level))
        <==> Mapped(mem, l.l5, l.reference, address, page, level)
      ensures Translate(mem', l.l5, root, address) == Some((page, level))
        <==> Mapped(mem', l.l5, root, address, page, level)
    {
      ChainExactly(mem, l.l5, l.reference, address, page, level);
      ChainExactly(mem', l.l5, root, address, page, level);
    }
    if Translate(mem, l.l5, l.reference, address).Some? {
      var (page, level) := Translate(mem, l.l5, l.reference, address).value;
      assert Mapped(mem, l.l5, l.reference, address, page, level);
    }
  }

  class Kernel {
    const l: Layout
    var mem: Tables

    constructor (l: Layout, mem: Tables)
      ensures this.l == l && this.mem == mem
    {
      this.l, this.mem := l, mem;
    }

    /** The part of a fault below the top-level tables: pud, pmd and pte. */
    method Lower(pudTable: int, address: nat) returns (r: int)
      requires Shaped(mem) && pudTable in mem && mem[pudTable].level == 3
      ensures r == if Walk(mem, mem[pudTable].entries[Index(address, 3)], 3, address).Some? then 0 else -1
      ensures var pud := mem[pudTable].entries[address / 0x4000_0000 % 512];
        var pmd := Below(mem, pud, address / 0x20_0000 % 512);
        r == if pud.Huge? || pmd.Huge? || Below(mem, pmd, address / 0x1000 % 512).Leaf? then 0 else -1
    {
      var pud := mem[pudTable].entries[Index(address, 3)];
      if pud.Empty? {
        return -1;
      }
      if pud.Huge? {
        return 0;
      }
      var pmd := mem[pud.table].entries[Index(address, 2)];
      if pmd.Empty? {
        return -1;
      }
      if pmd.Huge? {
        return 0;
      }
      var pte := mem[pmd.table].entries[Index(address, 1)];
      if !pte.Leaf? {
        return -1;
      }
      return 0;
    }

    /** `vmalloc_fault`, level by level. */
    method VmallocFault(root: int, address: nat) returns (r: Result)
      requires Shaped(mem) && IsRoot(mem, l.l5, root) && IsRoot(mem, l.l5, l.reference)
      modifies this
      ensures (mem, r) == Fault(old(mem), l, root, address)
      ensures Shaped(mem) && IsRoot(mem, l.l5, root) && IsRoot(mem, l.l5, l.reference)
      ensures r == Returns(0) <==>
        l.start <= address < l.end && !r.Bug? && EndsInPage(old(mem), l.l5, l.reference, address)
      ensures r == Returns(0) ==> forall page, level ::
        Mapped(mem, l.l5, root, address, page, level) <==> Mapped(old(mem), l.l5, l.reference, address, page, level)
    {
      FaultChains(mem, l, root, address);
      if !(l.start <= address < l.end) {
        return Returns(-1);
      }
      // pgd and p4d are positions: a table and an index
      var pgd, pgdK, i := root, l.reference, Index(address, Top(l.l5));
      ghost var ref := EntryAt(mem, l.l5, l.reference, address);
      SetShaped(mem, root, i, ref);
      if l.l5 && mem[pgdK].entries[i].Empty? { // a folded pgd is never none
        return Returns(-1);
      }
      if l.l5 {
        if mem[pgd].entries[i].Empty? {
          mem := SetEntry(mem, pgd, i, mem[pgdK].entries[i]);
        } else if mem[pgd].entries[i].table != mem[pgdK].entries[i].table {
          return Bug;
        }
      }
      var p4d := if l.l5 then mem[pgd].entries[i].table else pgd;
      var p4dK := if l.l5 then mem[pgdK].entries[i].table else pgdK;
      var j := Index(address, 4);
      if mem[p4dK].entries[j].Empty? {
        return Returns(-1);
      }
      if mem[p4d].entries[j].Empty? && !l.l5 {
        mem := SetEntry(mem, p4d, j, mem[p4dK].entries[j]);
      } else if mem[p4d].entries[j] != mem[p4dK].entries[j] {
        return Bug;
      }
      WalkKept(old(mem), mem, ref, Top(l.l5), address);
      var ret := Lower(mem[p4d].entries[j].table, address);
      return Returns(ret);
    }
  }

  // ----- all processes, over time -----

  /** The tables, the processes' top-level tables, and whether a BUG_ON has fired. */
  datatype State = State(mem: Tables, roots: set<int>, bug: bool)

  datatype Event =
    | Allocate(t: int, level: int)            // a fresh, empty table below the top
    | Change(t: int, i: int, e: Entry)        // any change below the top level
    | Populate(i: int, e: Entry)              // the reference gains a top-level entry
    | User(root: int, i: int, e: Entry)       // any change to the user half of a process
    | Fork(root: int)                         // a new process copies the reference's kernel half
    | Exit(root: int)
    | Sync(root: int, i: int)                 // one entry copied by a full synchronisation
    | Touch(root: int, address: nat)          // a vmalloc fault

  /** The first top-level index of the kernel half. */
  const KERNEL: int := 256

  ghost predicate Rooted(l: Layout, s: State) {
    && Shaped(s.mem) && IsRoot(s.mem, l.l5, l.reference) && l.reference !in s.roots
    && forall r :: r in s.roots ==> IsRoot(s.mem, l.l5, r)
  }

  ghost predicate Enabled(l: Layout, s: State, e: Event) {
    Rooted(l, s) &&
    match e
    case Allocate(t, level) => t !in s.mem && 1 <= level < Top(l.l5)
    case Change(t, i, x) =>
      && t in s.mem && 1 <= s.mem[t].level < Top(l.l5) && 0 <= i < ENTRIES == |s.mem[t].entries|
      && Typed(s.mem, s.mem[t].level, x)
    case Populate(i, x) =>
      && KERNEL <= i < ENTRIES && s.mem[l.reference].entries[i].Empty? && Typed(s.mem, Top(l.l5), x)
    case User(r, i, x) => r in s.roots && 0 <= i < KERNEL && Typed(s.mem, Top(l.l5), x)
    case Fork(r) => r !in s.mem
    case Exit(r) => r in s.roots
    case Sync(r, i) => r in s.roots && KERNEL <= i < ENTRIES
    case Touch(r, _) => r in s.roots
  }

  ghost function Next(l: Layout, s: State, e: Event): State
    requires Enabled(l, s, e)
  {
    match e
    case Allocate(t, level) => s.(mem := s.mem[t := Table(level, seq(ENTRIES, _ => Empty))])
    case Change(t, i, x) => s.(mem := SetEntry(s.mem, t, i, x))
    case Populate(i, x) => s.(mem := SetEntry(s.mem, l.reference, i, x))
    case User(r, i, x) => s.(mem := SetEntry(s.mem, r, i, x))
    case Fork(r) =>
      s.(mem := s.mem[r := Table(Top(l.l5), seq(KERNEL, _ => Empty) + s.mem[l.reference].entries[KERNEL..])],
         roots := s.roots + {r})
    case Exit(r) => s.(roots := s.roots - {r})
    case Sync(r, i) =>
      if s.mem[r].entries[i].Empty? then s.(mem := SetEntry(s.mem, r, i, s.mem[l.reference].entries[i])) else s
    case Touch(r, address) =>
      var (mem, result) := Fault(s.mem, l, r, address);
      s.(mem := mem, bug := s.bug || result.Bug?)
  }

  /** The vmalloc area lies in the kernel half. */
  predicate Sane(l: Layout) {
    && l.end <= 0x1_0000_0000_0000_0000
    && l.start >= if l.l5 then 0xff00_0000_0000_0000 else 0xffff_8000_0000_0000
  }

  lemma AreaIsKernel(l: Layout, address: nat)
    requires Sane(l) && l.start <= address < l.end
    ensures KERNEL <= Index(address, Top(l.l5))
  {}

  /** A process's kernel entries are empty or the reference's own. */
  predicate Agrees(mem: Tables, l: Layout, root: int)
    requires IsRoot(mem, l.l5, root) && IsRoot(mem, l.l5, l.reference)
  {
    forall i :: KERNEL <= i < ENTRIES ==>
      mem[root].entries[i].Empty? || mem[root].entries[i] == mem[l.reference].entries[i]
  }

  ghost predicate Inv(l: Layout, s: State) {
    Rooted(l, s) && !s.bug && forall r :: r in s.roots ==> Agrees(s.mem, l, r)
  }

  /** Setting an entry of one table: what becomes of the top-level tables. */
  lemma SetInv(l: Layout, s: State, t: int, i: nat, e: Entry)
    requires Inv(l, s) && t in s.mem && i < ENTRIES && Typed(s.mem, s.mem[t].level, e)
    requires t == l.reference ==> i >= KERNEL && (s.mem[t].entries[i].Empty? || s.mem[t].entries[i] == e)
    requires t in s.roots ==> i < KERNEL || e.Empty? || e == s.mem[l.reference].entries[i]
    ensures Inv(l, s.(mem := SetEntry(s.mem, t, i, e)))
  {
    SetShaped(s.mem, t, i, e);
    var s' := s.(mem := SetEntry(s.mem, t, i, e));
    forall r | r in s.roots
      ensures IsRoot(s'.mem, l.l5, r) && Agrees(s'.mem, l, r)
    {
      assert Agrees(s.mem, l, r);
    }
  }

  /** A table that nothing referred to before. */
  lemma FreshInv(l: Layout, s: State, t: int, table: Table, more: set<int>)
    requires Inv(l, s) && t !in s.mem && 1 <= table.level <= 5 && |table.entries| == ENTRIES && more <= {t}
    requires forall i :: 0 <= i < ENTRIES ==> Typed(s.mem, table.level, table.entries[i])
    requires t in more ==> table.level == Top(l.l5)
    requires t in more ==> forall i :: KERNEL <= i < ENTRIES ==> table.entries[i] == s.mem[l.reference].entries[i]
    ensures Inv(l, s.(mem := s.mem[t := table], roots := s.roots + more))
  {
    var mem' := s.mem[t := table];
    assert forall level, x :: Typed(s.mem, level, x) ==> Typed(mem', level, x);
    forall r | r in s.roots
      ensures IsRoot(mem', l.l5, r) && Agrees(mem', l, r)
    {
      assert Agrees(s.mem, l, r);
    }
  }

  lemma TouchInv(l: Layout, s: State, r: int, address: nat)
    requires Sane(l) && Inv(l, s) && r in s.roots
    ensures !Fault(s.mem, l, r, address).1.Bug?
    ensures Inv(l, s.(mem := Fault(s.mem, l, r, address).0))
  {
    assert Agrees(s.mem, l, r);
    if l.start <= address < l.end {
      AreaIsKernel(l, address);
      SetInv(l, s, r, Index(address, Top(l.l5)), EntryAt(s.mem, l.l5, l.reference, address));
    }
  }

  /** Every step keeps the agreement, and no step fires a BUG_ON. */
  lemma InvStep(l: Layout, s: State, e: Event)
    requires Sane(l) && Inv(l, s) && Enabled(l, s, e)
    ensures Inv(l, Next(l, s, e))
  {
    match e
    case Allocate(t, level) => FreshInv(l, s, t, Table(level, seq(ENTRIES, _ => Empty)), {});
    case Change(t, i, x) => SetInv(l, s, t, i, x);
    case Populate(i, x) => SetInv(l, s, l.reference, i, x);
    case User(r, i, x) => SetInv(l, s, r, i, x);
    case Fork(r) =>
      FreshInv(l, s, r, Table(Top(l.l5), seq(KERNEL, _ => Empty) + s.mem[l.reference].entries[KERNEL..]), {r});
    case Exit(_) =>
    case Sync(r, i) => if s.mem[r].entries[i].Empty? { SetInv(l, s, r, i, s.mem[l.reference].entries[i]); }
    case Touch(r, address) => TouchInv(l, s, r, address);
  }

  /** A run from a machine with no processes yet, through any events whatever. */
  ghost predicate Run(l: Layout, tr: seq<State>, ev: seq<Event>) {
    && |tr| == |ev| + 1 && Sane(l) && Rooted(l, tr[0]) && tr[0].roots == {} && !tr[0].bug
    && forall i :: 0 <= i < |ev| ==> Enabled(l, tr[i], ev[i]) && tr[i + 1] == Next(l, tr[i], ev[i])
  }

  /**
   * In every reachable state every top-level kernel entry of every process is empty or equal to
   * the reference, and no BUG_ON has fired.
   */
  lemma {:induction false} ReferenceAgreement(l: Layout, tr: seq<State>, ev: seq<Event>, n: nat)
    requires Run(l, tr, ev) && n <= |ev|
    ensures Inv(l, tr[n])
    decreases n
  {
    if n > 0 {
      ReferenceAgreement(l, tr, ev, n - 1);
      assert Enabled(l, tr[n - 1], ev[n - 1]);
      InvStep(l, tr[n - 1], ev[n - 1]);
    }
  }

  lemma FaultOutcome(l: Layout, s: State, root: int, address: nat)
    requires Sane(l) && Inv(l, s) && root in s.roots
    ensures var mem := s.mem; var (mem', result) := Fault(mem, l, root, address);
      && (result == Returns(0) || result == Returns(-1))
      && (result == Returns(0) <==> l.start <= address < l.end && Translate(mem, l.l5, l.reference, address).Some?)
      && Shaped(mem') && IsRoot(mem', l.l5, root) && IsRoot(mem', l.l5, l.reference)
      && Translate(mem', l.l5, l.reference, address) == Translate(mem, l.l5, l.reference, address)
      && (result == Returns(0) ==> Translate(mem', l.l5, root, address) == Translate(mem, l.l5, l.reference, address))
  {
    TouchInv(l, s, root, address);
    if l.start <= address < l.end {
      var i, ref := Index(address, Top(l.l5)), EntryAt(s.mem, l.l5, l.reference, address);
      SetShaped(s.mem, root, i, ref);
      WalkKept(s.mem, SetEntry(s.mem, root, i, ref), ref, Top(l.l5), address);
    }
  }

  /**
   * A fault in a reachable state: it returns 0 exactly when the address is in the area and the
   * reference maps it, and then the process's own walk ends where the reference walk does. All
   * that changes is one entry of the process, from empty to the reference's.
   */
  lemma FaultResolves(l: Layout, tr: seq<State>, ev: seq<Event>, n: nat, root: int, address: nat)
    requires Run(l, tr, ev) && n <= |ev| && root in tr[n].roots
    ensures Inv(l, tr[n])
    ensures var mem := tr[n].mem; var (mem', result) := Fault(mem, l, root, address);
      && (result == Returns(0) || result == Returns(-1))
      && (result == Returns(0) <==> l.start <= address < l.end && Translate(mem, l.l5, l.reference, address).Some?)
      && Shaped(mem') && IsRoot(mem', l.l5, root) && IsRoot(mem', l.l5, l.reference)
      && Translate(mem', l.l5, l.reference, address) == Translate(mem, l.l5, l.reference, address)
      && (result == Returns(0) ==> Translate(mem', l.l5, root, address) == Translate(mem, l.l5, l.reference, address))
  {
    ReferenceAgreement(l, tr, ev, n);
    FaultOutcome(l, tr[n], root, address);
  }

  /**
   * The same entry by entry: in every reachable state a fault returns 0 exactly if the address is
   * in the area and the reference's chain ends in a huge pud, a huge pmd or a present page-table
   * entry, and -1 otherwise; after a 0 the process's own chain ends in the same page at the same level.
   */
  lemma FaultFollowsChain(l: Layout, tr: seq<State>, ev: seq<Event>, n: nat, root: int, address: nat)
    requires Run(l, tr, ev) && n <= |ev| && root in tr[n].roots
    ensures Inv(l, tr[n])
    ensures var mem := tr[n].mem; var (mem', r) := Fault(mem, l, root, address);
      && (r == Returns(0) || r == Returns(-1)) && Shaped(mem') && IsRoot(mem', l.l5, root)
      && (r == Returns(0) <==> l.start <= address < l.end && EndsInPage(mem, l.l5, l.reference, address))
      && (r == Returns(0) ==> forall page, level ::
           Mapped(mem', l.l5, root, address, page, level) <==> Mapped(mem, l.l5, l.reference, address, page, level))
  {
    FaultResolves(l, tr, ev, n, root, address);
    FaultChains(tr[n].mem, l, root, address);
  }

  /** A fault touches one entry at most, and only an empty one. */
  lemma FaultFrame(l: Layout, s: State, root: int, address: nat, t: int, i: nat)
    requires Sane(l) && Inv(l, s) && root in s.roots && t in s.mem && i < ENTRIES
    ensures var mem' := Fault(s.mem, l, root, address).0;
      && mem'.Keys == s.mem.Keys && |mem'[t].entries| == ENTRIES
      && (mem'[t].entries[i] != s.mem[t].entries[i] ==>
            && t == root && i == Index(address, Top(l.l5)) && l.start <= address < l.end
            && s.mem[t].entries[i].Empty? && mem'[t].entries[i] == s.mem[l.reference].entries[i])
  {
    assert Agrees(s.mem, l, root);
    if l.start <= address < l.end { AreaIsKernel(l, address); }
  }

  /** A kernel entry that has been filled in is never changed again. */
  lemma FilledStep(l: Layout, s: State, e: Event, t: int, i: int)
    requires Sane(l) && Inv(l, s) && Enabled(l, s, e)
    requires IsRoot(s.mem, l.l5, t) && t != l.reference && KERNEL <= i < ENTRIES && !s.mem[t].entries[i].Empty?
    ensures IsRoot(Next(l, s, e).mem, l.l5, t) && Next(l, s, e).mem[t].entries[i] == s.mem[t].entries[i]
  {
    if e.Touch? { FaultFrame(l, s, e.root, e.address, t, i); }
  }

  lemma RunStep(l: Layout, tr: seq<State>, ev: seq<Event>, n: nat)
    requires Run(l, tr, ev) && n < |ev|
    ensures Sane(l) && Inv(l, tr[n]) && Enabled(l, tr[n], ev[n]) && tr[n + 1] == Next(l, tr[n], ev[n])
  {
    ReferenceAgreement(l, tr, ev, n);
  }

  lemma FilledOn(l: Layout, tr: seq<State>, ev: seq<Event>, n: nat, t: int, i: int)
    requires Run(l, tr, ev) && n < |ev|
    requires IsRoot(tr[n].mem, l.l5, t) && t != l.reference && KERNEL <= i < ENTRIES && !tr[n].mem[t].entries[i].Empty?
    ensures IsRoot(tr[n + 1].mem, l.l5, t) && tr[n + 1].mem[t].entries[i] == tr[n].mem[t].entries[i]
  {
    RunStep(l, tr, ev, n);
    FilledStep(l, tr[n], ev[n], t, i);
  }

  lemma {:induction false} FilledStays(l: Layout, tr: seq<State>, ev: seq<Event>, n: nat, m: nat, t: int, i: int)
    requires Run(l, tr, ev) && n <= m <= |ev|
    requires IsRoot(tr[n].mem, l.l5, t) && t != l.reference && KERNEL <= i < ENTRIES && !tr[n].mem[t].entries[i].Empty?
    ensures IsRoot(tr[m].mem, l.l5, t) && tr[m].mem[t].entries[i] == tr[n].mem[t].entries[i]
    decreases m
  {
    if n < m {
      FilledStays(l, tr, ev, n, m - 1, t, i);
      FilledOn(l, tr, ev, m - 1, t, i);
    }
  }

  /**
   * One fault is enough: once a process has an entry, its walk of every vmalloc address under
   * that entry agrees with the reference in every later state, whatever changes below.
   */
  lemma OneFaultIsEnough(l: Layout, tr: seq<State>, ev: seq<Event>, n: nat, m: nat, root: int, address: nat)
    requires Run(l, tr, ev) && n <= m <= |ev| && root in tr[n].roots && root in tr[m].roots
    requires l.start <= address < l.end
    ensures Inv(l, tr[n]) && Inv(l, tr[m])
    ensures !EntryAt(tr[n].mem, l.l5, root, address).Empty? ==>
      Translate(tr[m].mem, l.l5, root, address) == Translate(tr[m].mem, l.l5, l.reference, address)
  {
    ReferenceAgreement(l, tr, ev, n);
    ReferenceAgreement(l, tr, ev, m);
    AreaIsKernel(l, address);
    if !EntryAt(tr[n].mem, l.l5, root, address).Empty? {
      FilledStays(l, tr, ev, n, m, root, Index(address, Top(l.l5)));
      assert Agrees(tr[m].mem, l, root);
    }
  }

  /**
   * Why the reference may only gain entries: if one that a process has copied were replaced by
   * another, the next fault below it would fire the BUG_ON.
   */
  lemma ReplacedEntryBugs(l: Layout, s: State, root: int, address: nat, e: Entry)
    requires Sane(l) && Inv(l, s) && root in s.roots && l.start <= address < l.end
    requires !EntryAt(s.mem, l.l5, root, address).Empty? && Typed(s.mem, Top(l.l5), e) && !e.Empty?
    requires e != EntryAt(s.mem, l.l5, l.reference, address)
    ensures var mem' := SetEntry(s.mem, l.reference, Index(address, Top(l.l5)), e);
      Shaped(mem') && IsRoot(mem', l.l5, root) && IsRoot(mem', l.l5, l.reference)
      && Fault(mem', l, root, address) == (mem', Bug)
  {
    AreaIsKernel(l, address);
    assert Agrees(s.mem, l, root);
    SetShaped(s.mem, l.reference, Index(address, Top(l.l5)), e);
  }
}
