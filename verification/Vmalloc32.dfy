/**
 * The 32-bit `vmalloc_sync_one`, `vmalloc_sync_all` and `vmalloc_fault`: middle-level entries
 * of every process are brought in line with the reference table, with or without PAE.
 */
module Vmalloc32 {
  /** A top- or middle-level entry: without the present bit, or pointing to a page. */
  datatype Entry = NotPresent(bits: int) | Present(page: int, large: bool)

  type Tables = map<int, seq<Entry>>

  /** Fixed by the configuration and the memory map. */
  datatype Layout = Layout(
    pae: bool, sharedKernelPmd: bool, reference: int,
    vmallocStart: nat, vmallocEnd: nat, taskSizeMax: nat, fixaddrTop: nat)
  {
    /** PMD_SIZE: what one middle-level entry maps. */
    function PmdSize(): (n: nat)
      ensures n == 0x20_0000 || n == 0x40_0000
    {
      if pae then 0x20_0000 else 0x40_0000
    }

    /** How many middle-level entries cover the address space. */
    function Pmds(): nat { if pae then 2048 else 1024 }

    /** The first middle-level entry of the loop. */
    function First(): nat { vmallocStart / PmdSize() }

    predicate Sane() {
      && vmallocStart < 0x1_0000_0000 && vmallocEnd < 0x1_0000_0000 && fixaddrTop < 0x1_0000_0000
      && 0 < taskSizeMax
    }
  }

  const TOPS: nat := 4
  const PER_TABLE: nat := 512

  ghost predicate PaeRoot(t: Tables, l: Layout, roots: set<int>, r: int)
    requires r in t
  {
    && |t[r]| == TOPS
    && forall i :: 0 <= i < TOPS && t[r][i].Present? ==>
      && t[r][i].page in t && |t[t[r][i].page]| == PER_TABLE && t[r][i].page !in roots
  }

  /**
   * Shape of the tables. Without PAE the top-level table is the middle level. With PAE its four
   * entries lead to middle-level tables, each with its own, and a process has one wherever the
   * reference has one: they are allocated with the process when they are not shared.
   */
  ghost predicate Shaped(t: Tables, l: Layout, roots: set<int>) {
    && l.reference in roots
    && forall r :: r in roots ==> r in t && if l.pae then PaeRoot(t, l, roots, r) else |t[r]| == 1024
  }

  /** No middle-level table is reached in two ways, and processes have one where the reference does. */
  ghost predicate Private(t: Tables, l: Layout, roots: set<int>)
    requires Shaped(t, l, roots)
  {
    l.pae ==>
      && (forall r, r', i, i' ::
            (r in roots && r' in roots && 0 <= i < TOPS && 0 <= i' < TOPS && t[r][i].Present? && t[r'][i'].Present?
             && t[r][i].page == t[r'][i'].page) ==> r == r' && i == i')
      && (forall r, i :: r in roots && 0 <= i < TOPS && t[l.reference][i].Present? ==> t[r][i].Present?)
  }

  ghost predicate Valid(t: Tables, l: Layout, roots: set<int>) { Shaped(t, l, roots) && Private(t, l, roots) }

  /** The middle-level entry `p` of a process; not present if its table is not. */
  ghost function At(t: Tables, l: Layout, roots: set<int>, r: int, p: nat): Entry
    requires Shaped(t, l, roots) && r in roots && p < l.Pmds()
  {
    if !l.pae then t[r][p]
    else if t[r][p / PER_TABLE].Present? then t[t[r][p / PER_TABLE].page][p % PER_TABLE]
    else NotPresent(0)
  }

  /** Where that entry is stored. */
  function Home(t: Tables, l: Layout, r: int, p: nat): (int, nat)
    requires r in t && p < l.Pmds() && |t[r]| == if l.pae then TOPS else 1024
    requires l.pae ==> t[r][p / PER_TABLE].Present?
  {
    if l.pae then (t[r][p / PER_TABLE].page, p % PER_TABLE) else (r, p)
  }

  /** Storing one entry changes that one and no other, of any process. */
  lemma SetAt(t: Tables, l: Layout, roots: set<int>, r: int, p: nat, e: Entry)
    requires Valid(t, l, roots) && r in roots && p < l.Pmds() && (l.pae ==> t[r][p / PER_TABLE].Present?)
    ensures var (table, i) := Home(t, l, r, p); var t' := t[table := t[table][i := e]];
      && Valid(t', l, roots)
      && forall r', p' :: r' in roots && 0 <= p' < l.Pmds() ==>
           At(t', l, roots, r', p') == if r' == r && p' == p then e else At(t, l, roots, r', p')
  {
    var (table, i) := Home(t, l, r, p);
    var t' := t[table := t[table][i := e]];
    if l.pae {
      assert forall r' :: r' in roots ==> t'[r'] == t[r'];
      assert Shaped(t', l, roots);
      forall r', p' | r' in roots && 0 <= p' < l.Pmds()
        ensures At(t', l, roots, r', p') == if r' == r && p' == p then e else At(t, l, roots, r', p')
      {
        assert p == p / PER_TABLE * PER_TABLE + p % PER_TABLE && p' == p' / PER_TABLE * PER_TABLE + p' % PER_TABLE;
      }
    }
  }

  // ----- what synchronising means -----

  /** What the loop does to an entry: take over the reference's if there is none yet. */
  function Merged(own: Entry, ref: Entry): Entry { if ref.Present? && !own.Present? then ref else own }

  predicate Conflict(own: Entry, ref: Entry) { ref.Present? && own.Present? && own.page != ref.page }

  /** The middle-level entries the loop goes over. */
  predicate InRange(l: Layout, p: nat) {
    l.First() <= p && l.First() * l.PmdSize() >= l.taskSizeMax && p * l.PmdSize() < l.fixaddrTop
  }

  /** Part of the way: the entries below `p` merged for all of `list`, and entry `p` for `done`. */
  ghost predicate Partway(t: Tables, t0: Tables, l: Layout, roots: set<int>, list: seq<int>, p: nat, done: set<int>)
    requires Valid(t, l, roots) && Valid(t0, l, roots)
  {
    forall r, q :: r in roots && 0 <= q < l.Pmds() ==>
      At(t, l, roots, r, q) == if InRange(l, q) && ((q < p && r in list) || (q == p && r in done))
        then Merged(At(t0, l, roots, r, q), At(t0, l, roots, l.reference, q))
        else At(t0, l, roots, r, q)
  }

  /** No conflict among the entries already visited. */
  ghost predicate Clean(t0: Tables, l: Layout, roots: set<int>, list: seq<int>, p: nat, done: set<int>)
    requires Valid(t0, l, roots)
  {
    forall r, q ::
      (r in roots && 0 <= q < l.Pmds() && InRange(l, q) && ((q < p && r in list) || (q == p && r in done))) ==>
      !Conflict(At(t0, l, roots, r, q), At(t0, l, roots, l.reference, q))
  }

  datatype Result = Null | Pmd(entry: Entry) | Bug

  /** What synchronising one entry comes to: the reference alone decides whether anything is found. */
  function One(own: Entry, ref: Entry): Result {
    if !ref.Present? then Null else if Conflict(own, ref) then Bug else Pmd(ref)
  }

  /** Entry `p` of one table has been merged and no other entry of any table has changed. */
  ghost predicate Stored(t': Tables, t: Tables, l: Layout, roots: set<int>, r: int, p: nat)
    requires Valid(t, l, roots) && Valid(t', l, roots) && r in roots && p < l.Pmds()
  {
    forall r', q :: r' in roots && 0 <= q < l.Pmds() ==>
      At(t', l, roots, r', q) == if r' == r && q == p
        then Merged(At(t, l, roots, r, p), At(t, l, roots, l.reference, p)) else At(t, l, roots, r', q)
  }

  /** No table of the list has another page than the reference's anywhere in the range. */
  ghost predicate Consistent(t: Tables, l: Layout, roots: set<int>, list: seq<int>)
    requires Valid(t, l, roots)
  {
    forall r, q :: r in roots && r in list && 0 <= q < l.Pmds() && InRange(l, q) ==>
      !Conflict(At(t, l, roots, r, q), At(t, l, roots, l.reference, q))
  }

  /** Visiting one more table of the list at entry `p`. */
  lemma Visited(t: Tables, t': Tables, t0: Tables, l: Layout, roots: set<int>, list: seq<int>,
                p: nat, done: set<int>, r: int, res: Result)
    requires Valid(t, l, roots) && Valid(t', l, roots) && Valid(t0, l, roots) && p < l.Pmds() && InRange(l, p)
    requires Partway(t, t0, l, roots, list, p, done) && Clean(t0, l, roots, list, p, done) && r in roots && r in list
    requires res == One(At(t, l, roots, r, p), At(t, l, roots, l.reference, p))
    requires Stored(t', t, l, roots, r, p)
    ensures res.Bug? ==> !Consistent(t0, l, roots, list)
    ensures !res.Bug? ==> Partway(t', t0, l, roots, list, p, done + {r}) && Clean(t0, l, roots, list, p, done + {r})
    ensures res.Null? ==> !At(t0, l, roots, l.reference, p).Present?
  {
    assert At(t, l, roots, l.reference, p) == At(t0, l, roots, l.reference, p);
    if res.Bug? {
      assert Conflict(At(t0, l, roots, r, p), At(t0, l, roots, l.reference, p));
    }
  }

  /** Entry `p` is finished when the list is, or at once when the reference has nothing there. */
  lemma RowDone(t: Tables, t0: Tables, l: Layout, roots: set<int>, list: seq<int>, p: nat, done: set<int>)
    requires Valid(t, l, roots) && Valid(t0, l, roots) && p < l.Pmds() && done <= set r | r in list
    requires Partway(t, t0, l, roots, list, p, done) && Clean(t0, l, roots, list, p, done)
    requires (forall r :: r in list ==> r in done) || !At(t0, l, roots, l.reference, p).Present?
    ensures Partway(t, t0, l, roots, list, p + 1, {}) && Clean(t0, l, roots, list, p + 1, {})
  {}

  /** Every table of the list maps the range as the reference does; nothing else has changed. */
  ghost predicate Synced(t: Tables, t0: Tables, l: Layout, roots: set<int>, list: seq<int>)
    requires Valid(t, l, roots) && Valid(t0, l, roots)
  {
    forall r, q :: r in roots && 0 <= q < l.Pmds() ==>
      var own, own0, ref := At(t, l, roots, r, q), At(t0, l, roots, r, q), At(t0, l, roots, l.reference, q);
      && (own0.Present? || !ref.Present? || r !in list || !InRange(l, q) ==> own == own0)
      && (r in list && InRange(l, q) && ref.Present? ==> own.Present? && own.page == ref.page)
  }

  /** Outside the range there is nothing left to do. */
  lemma AllDone(t: Tables, t0: Tables, l: Layout, roots: set<int>, list: seq<int>, p: nat)
    requires Valid(t, l, roots) && Valid(t0, l, roots) && l.First() <= p <= l.Pmds()
    requires Partway(t, t0, l, roots, list, p, {}) && Clean(t0, l, roots, list, p, {})
    requires forall q :: p <= q < l.Pmds() ==> !InRange(l, q)
    ensures Synced(t, t0, l, roots, list) && Consistent(t0, l, roots, list)
  {}

  /** Afterwards there is no conflict, and synchronising again changes nothing. */
  lemma SyncedTwice(t2: Tables, t1: Tables, t0: Tables, l: Layout, roots: set<int>, list: seq<int>)
    requires Valid(t0, l, roots) && Valid(t1, l, roots) && Valid(t2, l, roots)
    requires Synced(t1, t0, l, roots, list) && Synced(t2, t1, l, roots, list)
    ensures Consistent(t1, l, roots, list)
    ensures forall r, q :: r in roots && 0 <= q < l.Pmds() ==> At(t2, l, roots, r, q) == At(t1, l, roots, r, q)
  {
    forall q | 0 <= q < l.Pmds()
      ensures At(t1, l, roots, l.reference, q) == At(t0, l, roots, l.reference, q)
    {
    }
  }

  /** The loop variable at entry `p`: past the last entry it has wrapped. */
  predicate Reached(l: Layout, p: nat, address: nat) {
    && l.First() <= p <= l.Pmds() && address == (if p < l.Pmds() then p * l.PmdSize() else 0)
    && (p > l.First() ==> l.First() * l.PmdSize() >= l.taskSizeMax)
  }

  lemma Stride(l: Layout, p: nat, address: nat)
    requires l.Sane() && Reached(l, p, address) && address >= l.taskSizeMax && address < l.fixaddrTop
    ensures p < l.Pmds() && address / l.PmdSize() == p && InRange(l, p)
    ensures Reached(l, p + 1, (address + l.PmdSize()) % 0x1_0000_0000)
  {}

  lemma LoopOver(l: Layout, p: nat, address: nat, q: nat)
    requires l.Sane() && Reached(l, p, address) && !(address >= l.taskSizeMax && address < l.fixaddrTop)
    requires p <= q < l.Pmds()
    ensures !InRange(l, q)
  {
    assert p * l.PmdSize() <= q * l.PmdSize();
  }

  /** The reference entry leads to a present page; `ptes` tells which last-level entries are present. */
  predicate Maps(ref: Entry, ptes: (int, nat) -> bool, address: nat) {
    ref.Present? && (ref.large || ptes(ref.page, address / 0x1000))
  }

  // ----- by address -----

  /** The middle-level entry that maps an address, found as the hardware finds it. */
  function EntryFor(t: Tables, l: Layout, r: int, address: nat): Entry
    requires address < 0x1_0000_0000 && r in t && |t[r]| == if l.pae then 4 else 1024
  {
    if !l.pae then t[r][address / 0x40_0000]
    else
      var top := t[r][address / 0x4000_0000];
      if top.Present? && top.page in t && |t[top.page]| == 512 then t[top.page][address / 0x20_0000 % 512]
      else NotPresent(0)
  }

  lemma AtAddress(t: Tables, l: Layout, roots: set<int>, r: int, address: nat)
    requires Shaped(t, l, roots) && r in roots && address < 0x1_0000_0000
    ensures address / l.PmdSize() < l.Pmds()
    ensures At(t, l, roots, r, address / l.PmdSize()) == EntryFor(t, l, r, address)
  {
    assert l.pae ==> address / 0x20_0000 / 512 == address / 0x4000_0000;
  }

  /** VMALLOC_START & PMD_MASK. */
  function RoundedStart(l: Layout): nat {
    if l.pae then l.vmallocStart - l.vmallocStart % 0x20_0000 else l.vmallocStart - l.vmallocStart % 0x40_0000
  }

  /** Addresses of the area are in the range, if the range has any. */
  lemma AreaInRange(l: Layout, address: nat)
    requires l.Sane() && l.vmallocStart <= address < l.fixaddrTop && RoundedStart(l) >= l.taskSizeMax
    ensures InRange(l, address / l.PmdSize())
  {
    assert l.First() * l.PmdSize() == RoundedStart(l);
    assert address / l.PmdSize() * l.PmdSize() <= address;
  }

  /** At every address of the area where the reference has an entry, each listed table has one for the same page. */
  ghost predicate SyncedAt(t: Tables, t0: Tables, l: Layout, list: seq<int>, address: nat)
    requires address < 0x1_0000_0000 && l.reference in t0 && |t0[l.reference]| == if l.pae then 4 else 1024
    requires forall r :: r in list ==> r in t && |t[r]| == if l.pae then 4 else 1024
  {
    var ref := EntryFor(t0, l, l.reference, address);
    forall r :: r in list && ref.Present? ==>
      EntryFor(t, l, r, address).Present? && EntryFor(t, l, r, address).page == ref.page
  }

  lemma SyncedByAddress(t: Tables, t0: Tables, l: Layout, roots: set<int>, list: seq<int>, address: nat)
    requires Valid(t, l, roots) && Valid(t0, l, roots) && Synced(t, t0, l, roots, list)
    requires l.Sane() && (forall r :: r in list ==> r in roots)
    requires l.vmallocStart <= address < l.fixaddrTop && RoundedStart(l) >= l.taskSizeMax
    ensures SyncedAt(t, t0, l, list, address)
  {
    AreaInRange(l, address);
    AtAddress(t0, l, roots, l.reference, address);
    forall r | r in list
      ensures r in t && At(t, l, roots, r, address / l.PmdSize()) == EntryFor(t, l, r, address)
    {
      AtAddress(t, l, roots, r, address);
    }
  }

  lemma SyncedEverywhere(t: Tables, t0: Tables, l: Layout, roots: set<int>, list: seq<int>)
    requires Valid(t, l, roots) && Valid(t0, l, roots) && Synced(t, t0, l, roots, list)
    requires l.Sane() && (forall r :: r in list ==> r in roots) && RoundedStart(l) >= l.taskSizeMax
    ensures forall address :: l.vmallocStart <= address < l.fixaddrTop ==> SyncedAt(t, t0, l, list, address)
  {
    forall address | l.vmallocStart <= address < l.fixaddrTop
      ensures SyncedAt(t, t0, l, list, address)
    {
      SyncedByAddress(t, t0, l, roots, list, address);
    }
  }

  /** An address whose entry the loop visits. */
  predicate Visits(l: Layout, address: nat) {
    var size := if l.pae then 0x20_0000 else 0x40_0000;
    RoundedStart(l) >= l.taskSizeMax && RoundedStart(l) <= address && address - address % size < l.fixaddrTop
  }

  lemma VisitsExactly(l: Layout, address: nat)
    requires l.Sane()
    ensures InRange(l, address / l.PmdSize()) <==> Visits(l, address)
  {
    var n := l.PmdSize();
    assert l.First() * n == RoundedStart(l) && address / n * n == address - address % n;
    if l.First() <= address / n { assert l.First() * n <= address / n * n; }
    if l.First() > address / n { assert l.First() * n >= (address / n + 1) * n > address; }
  }

  /** Two present entries for one address that lead to different pages. */
  predicate Clash(t: Tables, l: Layout, r: int, address: nat)
    requires address < 0x1_0000_0000 && l.reference in t && |t[l.reference]| == if l.pae then 4 else 1024
    requires r in t && |t[r]| == if l.pae then 4 else 1024
  {
    var own, ref := EntryFor(t, l, r, address), EntryFor(t, l, l.reference, address);
    own.Present? && ref.Present? && own.page != ref.page
  }

  /** A listed table and an address visited where there is such a clash. */
  ghost predicate SomeClash(t: Tables, l: Layout, roots: set<int>, list: seq<int>)
    requires Shaped(t, l, roots) && forall r :: r in list ==> r in roots
  {
    exists r, address: nat :: r in list && address < 0x1_0000_0000 && Visits(l, address) && Clash(t, l, r, address)
  }

  lemma ClashAt(t: Tables, l: Layout, roots: set<int>, r: int, address: nat)
    requires Valid(t, l, roots) && r in roots && address < 0x1_0000_0000
    ensures var p := address / l.PmdSize();
      p < l.Pmds() && (Conflict(At(t, l, roots, r, p), At(t, l, roots, l.reference, p)) <==> Clash(t, l, r, address))
  {
    AtAddress(t, l, roots, r, address);
    AtAddress(t, l, roots, l.reference, address);
  }

  lemma FirstAddress(l: Layout, p: nat)
    requires p < l.Pmds()
    ensures p * l.PmdSize() < 0x1_0000_0000 && p * l.PmdSize() / l.PmdSize() == p
  {}

  lemma ConsistentByAddress(t: Tables, l: Layout, roots: set<int>, list: seq<int>)
    requires Valid(t, l, roots) && l.Sane() && forall r :: r in list ==> r in roots
    ensures Consistent(t, l, roots, list) <==> !SomeClash(t, l, roots, list)
  {
    if SomeClash(t, l, roots, list) {
      var r, address: nat :| r in list && address < 0x1_0000_0000 && Visits(l, address) && Clash(t, l, r, address);
      ClashAt(t, l, roots, r, address);
      VisitsExactly(l, address);
    }
    if !Consistent(t, l, roots, list) {
      var r, q :| r in roots && r in list && 0 <= q < l.Pmds() && InRange(l, q)
        && Conflict(At(t, l, roots, r, q), At(t, l, roots, l.reference, q));
      FirstAddress(l, q);
      ClashAt(t, l, roots, r, q * l.PmdSize());
      VisitsExactly(l, q * l.PmdSize());
    }
  }

  /** Nothing changes where the loop does not come, for tables not listed, or where there was an entry already. */
  lemma KeptByAddress(t: Tables, t0: Tables, l: Layout, roots: set<int>, list: seq<int>, r: int, address: nat)
    requires Valid(t, l, roots) && Valid(t0, l, roots) && Synced(t, t0, l, roots, list) && l.Sane()
    requires r in roots && address < 0x1_0000_0000
    requires r !in list || !Visits(l, address) || EntryFor(t0, l, r, address).Present?
      || !EntryFor(t0, l, l.reference, address).Present?
    ensures EntryFor(t, l, r, address) == EntryFor(t0, l, r, address)
  {
    AtAddress(t, l, roots, r, address);
    AtAddress(t0, l, roots, r, address);
    AtAddress(t0, l, roots, l.reference, address);
    VisitsExactly(l, address);
  }

  class Memory {
    const l: Layout
    const list: seq<int>   // pgd_list
    ghost const roots: set<int>
    var tables: Tables

    ghost predicate Ready()
      reads this
    {
      Valid(tables, l, roots) && l.Sane() && forall r :: r in list ==> r in roots
    }

    constructor (l: Layout, list: seq<int>, ghost roots: set<int>, tables: Tables)
      requires Valid(tables, l, roots) && l.Sane() && forall r :: r in list ==> r in roots
      ensures Ready() && this.l == l && this.list == list && this.roots == roots && this.tables == tables
    {
      this.l, this.list, this.roots, this.tables := l, list, roots, tables;
    }

    /** `vmalloc_sync_one`. Whether it finds anything is decided by the reference alone. */
    method VmallocSyncOne(root: int, address: nat) returns (r: Result)
      requires Ready() && root in roots && address < 0x1_0000_0000
      modifies this`tables
      ensures Ready()
      ensures var p := address / l.PmdSize();
        && r == One(At(old(tables), l, roots, root, p), At(old(tables), l, roots, l.reference, p))
        && Stored(tables, old(tables), l, roots, root, p)
    {
      ghost var p := address / l.PmdSize();
      var index := address / (if l.pae then 0x4000_0000 else 0x40_0000);
      if l.pae && !tables[l.reference][index].Present? { // only here is a level above the pmd real
        return Null;
      }
      var pmdTable := if l.pae then tables[root][index].page else root;
      var pmdTableK := if l.pae then tables[l.reference][index].page else l.reference;
      var i := if l.pae then address / 0x20_0000 % PER_TABLE else index;
      var pmdK := tables[pmdTableK][i];
      if !pmdK.Present? {
        return Null;
      }
      if !tables[pmdTable][i].Present? {
        SetAt(tables, l, roots, root, p, pmdK);
        tables := tables[pmdTable := tables[pmdTable][i := pmdK]];
      } else if tables[pmdTable][i].page != pmdK.page {
        return Bug;
      }
      return Pmd(pmdK);
    }

    /** The walk over `pgd_list` for one address; `t0` are the tables the synchronisation began with. */
    method SyncRow(address: nat, ghost p: nat, ghost t0: Tables) returns (bug: bool)
      requires Ready() && Valid(t0, l, roots) && address < 0x1_0000_0000
      requires p == address / l.PmdSize() < l.Pmds() && InRange(l, p)
      requires Partway(tables, t0, l, roots, list, p, {}) && Clean(t0, l, roots, list, p, {})
      modifies this`tables
      ensures Ready() && (bug ==> !Consistent(t0, l, roots, list))
      ensures !bug ==> Partway(tables, t0, l, roots, list, p + 1, {}) && Clean(t0, l, roots, list, p + 1, {})
    {
      var k := 0;
      ghost var done: set<int> := {};
      while k < |list|
        invariant k <= |list| && Ready() && done == set r | r in list[..k]
        invariant Partway(tables, t0, l, roots, list, p, done) && Clean(t0, l, roots, list, p, done)
      {
        ghost var t := tables;
        var r := VmallocSyncOne(list[k], address);
        Visited(t, tables, t0, l, roots, list, p, done, list[k], r);
        if r.Bug? {
          return true;
        }
        done := done + {list[k]};
        if r.Null? {
          break;
        }
        k := k + 1;
      }
      RowDone(tables, t0, l, roots, list, p, done);
      return false;
    }

    /** The loop over the range. */
    method SyncRange() returns (bug: bool)
      requires Ready()
      modifies this`tables
      ensures Ready() && (bug <==> !Consistent(old(tables), l, roots, list))
      ensures !bug ==> Synced(tables, old(tables), l, roots, list)
    {
      ghost var t0 := tables;
      ghost var p := l.First();
      var address: nat := l.vmallocStart / l.PmdSize() * l.PmdSize();
      while address >= l.taskSizeMax && address < l.fixaddrTop
        invariant Ready() && Reached(l, p, address)
        invariant Partway(tables, t0, l, roots, list, p, {}) && Clean(t0, l, roots, list, p, {})
        decreases l.Pmds() - p
      {
        Stride(l, p, address);
        bug := SyncRow(address, p, t0);
        if bug {
          return;
        }
        p := p + 1;
        address := (address + l.PmdSize()) % 0x1_0000_0000;
      }
      forall q | p <= q < l.Pmds() ensures !InRange(l, q) { LoopOver(l, p, address, q); }
      AllDone(tables, t0, l, roots, list, p);
      return false;
    }

    /**
     * `vmalloc_sync_all`. When the middle level is shared there is nothing to do. Otherwise it
     * ends, though `address` may wrap, and then every table on the list has the reference's page
     * at every address of the area where the reference has one; nothing else has changed. A
     * BUG_ON fires exactly when some table already had another page there.
     */
    method VmallocSyncAll() returns (bug: bool)
      requires Ready()
      modifies this`tables
      ensures Ready()
      ensures l.sharedKernelPmd ==> !bug && tables == old(tables)
      ensures !l.sharedKernelPmd ==> (bug <==> SomeClash(old(tables), l, roots, list))
      ensures !l.sharedKernelPmd && !bug ==> Synced(tables, old(tables), l, roots, list)
      ensures !l.sharedKernelPmd && !bug && RoundedStart(l) >= l.taskSizeMax ==>
        forall address :: l.vmallocStart <= address < l.fixaddrTop ==> SyncedAt(tables, old(tables), l, list, address)
    {
      if l.sharedKernelPmd {
        return false;
      }
      ConsistentByAddress(tables, l, roots, list);
      bug := SyncRange();
      if !bug && RoundedStart(l) >= l.taskSizeMax { SyncedEverywhere(tables, old(tables), l, roots, list); }
    }

    /**
     * `vmalloc_fault`: 0 exactly when the address is in the area and the reference maps it, by a
     * large page or down to a present last-level entry; the process then has the same entry.
     */
    method VmallocFault(root: int, address: nat, ptes: (int, nat) -> bool) returns (r: int, bug: bool)
      requires Ready() && root in roots && address < 0x1_0000_0000
      modifies this`tables
      ensures Ready()
      ensures var p := address / l.PmdSize();
        var own, ref := At(old(tables), l, roots, root, p), At(old(tables), l, roots, l.reference, p);
        var area := l.vmallocStart <= address < l.vmallocEnd;
        && bug == (area && Conflict(own, ref))
        && (!bug ==> r == if area && Maps(ref, ptes, address) then 0 else -1)
        && (!bug && r == 0 ==> At(tables, l, roots, root, p).Present? && At(tables, l, roots, root, p).page == ref.page)
        && if area then Stored(tables, old(tables), l, roots, root, p) else tables == old(tables)
      ensures var own, ref := EntryFor(tables, l, root, address), EntryFor(old(tables), l, l.reference, address);
        && bug == (l.vmallocStart <= address < l.vmallocEnd && Clash(old(tables), l, root, address))
        && (!bug ==> (r == 0 <==>
              && l.vmallocStart <= address < l.vmallocEnd && ref.Present?
              && (ref.large || ptes(ref.page, address / 4096))))
        && (r == 0 ==> own.Present? && own.page == ref.page)
    {
      AtAddress(tables, l, roots, root, address);
      AtAddress(tables, l, roots, l.reference, address);
      if !(l.vmallocStart <= address < l.vmallocEnd) {
        return -1, false;
      }
      var pmdK := VmallocSyncOne(root, address);
      AtAddress(tables, l, roots, root, address);
      if pmdK.Bug? {
        return -1, true;
      }
      if pmdK.Null? {
        return -1, false;
      }
      if pmdK.entry.large {
        return 0, false;
      }
      if !ptes(pmdK.entry.page, address / 0x1000) {
        return -1, false;
      }
      return 0, false;
    }
  }
}
