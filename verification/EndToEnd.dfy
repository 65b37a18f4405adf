/** From atomic writes to whole library calls: encrypt and decrypt over every interleaving. */
module EndToEnd {
  import opened Types
  import opened Machine
  import opened Buffers
  import opened Isolation
  import opened Chunks
  import Semaphore

  // ----- one step, seen from the callers' buffers -----

  /** What a step does to the callers' buffers. */
  datatype Action = Silent | Whole(t: nat) | Part(t: nat, n: nat) | Refill(t: nat, data: seq<Byte>)

  predicate CopiesOut(v: View) { v.c.pc == Mmio(MUser) || v.c.pc == Dma(DUser) }

  function Label(s: State, e: Event): Action
    requires Enabled(s, e)
  {
    match e
    case Thread(t, ch) =>
      if !CopiesOut(Look(s, t)) then Silent else if ch.Fail? then Part(t, ch.copied) else Whole(t)
    case User(t, u) => if u.Fill? then Refill(t, u.data) else Silent
    case _ => Silent
  }

  /** The atomic specification: all four transfer modes carry out the same action. */
  function Effect(k: Card, s: State, a: Action, t: nat): seq<Byte>
    requires WellFormed(s) && t < |s.clients|
  {
    var v := Look(s, t);
    match a
    case Silent => v.c.user
    case Whole(u) => if u == t then Blit(v.c.user, v.c.l.off, Result(k, v)) else v.c.user
    case Part(u, n) => if u == t then Blit(v.c.user, v.c.l.off, Take(Result(k, v), n)) else v.c.user
    case Refill(u, data) => if u == t then data else v.c.user
  }

  lemma UserRefines(k: Card, s: State, t: nat, u: UserEvent)
    requires WellFormed(s) && t < |s.clients| && Enabled(s, User(t, u))
    ensures Next(k, s, User(t, u)).clients[t].user == Effect(k, s, Label(s, User(t, u)), t)
  {}

  /** An event of somebody else is labelled with somebody else. */
  lemma OthersSilent(k: Card, s: State, e: Event, t: nat)
    requires Enabled(s, e) && t < |s.clients| && !Concerns(e, t)
    ensures Effect(k, s, Label(s, e), t) == s.clients[t].user
  {}

  /** What the kernel buffer holds when it is copied out. */
  lemma CopyOutHolds(k: Card, v: View)
    requires LocalOk(v) && SecOk(k, v, true) && CopiesOut(v)
    ensures Kernel(v.g, v.j) == Result(k, v) && Take(Kernel(v.g, v.j), v.j.len) == Result(k, v)
  {}

  lemma MmioUser(v: View, pc: MmioPC, ch: Choice)
    requires v.c.pc == Mmio(pc) && !pc.MUser?
    ensures MmioStep(v, pc, ch).c.user == v.c.user
  {}

  lemma DmaUser(v: View, pc: DmaPC, ch: Choice)
    requires v.c.pc == Dma(pc) && !pc.DUser?
    ensures DmaStep(v, pc, ch).c.user == v.c.user
  {}

  lemma WaitUser(v: View, pc: WaitPC, ch: Choice)
    ensures WaitStep(v, pc, ch).c.user == v.c.user
  {}

  lemma LibraryUser(v: View, pc: LibPC, ch: Choice)
    ensures LibraryStep(v, pc, ch).c.user == v.c.user
  {}

  lemma EntryUser(k: Card, v: View, pc: PrePC, ch: Choice)
    ensures EntryStep(k, v, pc, ch).c.user == v.c.user
  {}

  lemma NoCopyOut(k: Card, v: View, ch: Choice)
    requires ThreadEnabled(v, ch) && !CopiesOut(v)
    ensures LocalStep(k, v, ch).c.user == v.c.user
  {
    match v.c.pc
    case Lib(pc) => LibraryUser(v, pc, ch);
    case Pre(pc) => EntryUser(k, v, pc, ch);
    case Mmio(pc) => MmioUser(v, pc, ch);
    case Dma(pc) => DmaUser(v, pc, ch);
    case Wait(pc) => WaitUser(v, pc, ch);
    case _ =>
  }

  lemma CopyOutRefines(k: Card, s: State, t: nat, ch: Choice)
    requires IsoOk(k, s, t) && t < |s.clients| && Enabled(s, Thread(t, ch))
    ensures LocalStep(k, Look(s, t), ch).c.user == Effect(k, s, Label(s, Thread(t, ch)), t)
  {
    var v := Look(s, t);
    assert LocalOk(v) && SecOk(k, v, true);
    if CopiesOut(v) {
      CopyOutHolds(k, v);
    } else {
      NoCopyOut(k, v, ch);
    }
  }

  /**
   * Mode refinement and isolation of one step: whatever the mode, and whatever the others do,
   * a caller's buffer changes only when its own write copies out, and then becomes the cipher
   * of its own bytes under its own key and direction.
   */
  lemma StepRefines(k: Card, s: State, e: Event, t: nat)
    requires IsoOk(k, s, t) && Enabled(s, e) && t < |s.clients|
    ensures Next(k, s, e).clients[t].user == Effect(k, s, Label(s, e), t)
  {
    if Concerns(e, t) {
      match e
      case Thread(_, ch) => CopyOutRefines(k, s, t, ch);
      case User(_, u) => UserRefines(k, s, t, u);
    } else {
      OthersPlace(k, s, e, t);
      OthersSilent(k, s, e, t);
    }
  }

  // ----- whole calls -----

  /** Bytes of the call that the library has already accounted for. */
  predicate Progress(u: seq<Byte>, length: nat, v: View) {
    var l := v.c.l;
    && !l.mapped && length <= |u|
    && match v.c.pc
       case Idle => l.ret == 0 ==> l.off == length > 0
       case Lib(pc) =>
         && l.off + l.rem == length && l.off % CHUNK == 0
         && (if pc.LoopTop? then l.rem > 0 || l.off == 0 else l.off == l.len == 0)
       case _ =>
         l.off + l.len + l.rem == length && l.off % CHUNK == 0 && (l.rem > 0 ==> l.len == CHUNK)
  }

  /** The whole chunks before `off`, and `n` further bytes of the failed chunk's cipher. */
  predicate PartlyOut(k: Card, key: nat, isE: bool, u: seq<Byte>, c: Client, n: nat)
    requires c.l.off + c.l.len <= |u|
  {
    && (n == 0 || n < c.l.len)
    && c.user == Blit(Processed(k, isE, key, u, c.l.off), c.l.off,
                      Take(k.Cipher(isE, key, u[c.l.off..c.l.off + c.l.len]), n))
  }

  ghost predicate Broken(k: Card, key: nat, isE: bool, u: seq<Byte>, length: nat, c: Client) {
    && c.l.off % CHUNK == 0 && c.l.off + c.l.len <= length <= |u|
    && exists n :: PartlyOut(k, key, isE, u, c, n)
  }

  /**
   * Where a call stands: `u` was the caller's buffer when it started. After a failed write
   * only whole earlier chunks are processed, plus the bytes a faulty copy-out managed.
   */
  ghost predicate Stands(k: Card, key: nat, isE: bool, u: seq<Byte>, length: nat, v: View) {
    && v.j.keyab == key && v.c.l.enc == isE && Progress(u, length, v)
    && match v.c.pc
       case Idle =>
         if v.c.l.ret == 0 then v.c.user == Processed(k, isE, key, u, length)
         else v.c.l.ret == -1 && Broken(k, key, isE, u, length, v.c)
       case Up(ok) => if ok then v.c.user == Processed(k, isE, key, u, v.c.l.off + v.c.l.len)
                      else Broken(k, key, isE, u, length, v.c)
       case Free(ok) => if ok then v.c.user == Processed(k, isE, key, u, v.c.l.off + v.c.l.len)
                        else Broken(k, key, isE, u, length, v.c)
       case _ => v.c.user == Processed(k, isE, key, u, v.c.l.off)
  }

  predicate Underway(pc: PC) { pc.Pre? || pc.Mmio? || pc.Dma? || pc.Wait? }

  lemma NothingOut(k: Card, key: nat, isE: bool, u: seq<Byte>, length: nat, c: Client)
    requires k.Good() && c.l.off % CHUNK == 0 && c.l.off + c.l.len <= length <= |u|
    requires c.user == Processed(k, isE, key, u, c.l.off)
    ensures Broken(k, key, isE, u, length, c)
  {
    ChunkedLength(k, isE, key, u[..c.l.off]);
    assert Take(k.Cipher(isE, key, u[c.l.off..c.l.off + c.l.len]), 0) == [];
    assert PartlyOut(k, key, isE, u, c, 0);
  }

  /** The call goes on, or fails before any of the current chunk was copied out. */
  predicate Silently(v: View, v': View) {
    && v'.j.keyab == v.j.keyab && v'.c.user == v.c.user
    && (|| (v'.c.l == v.c.l && (Underway(v'.c.pc) || v'.c.pc == Up(false) || v'.c.pc == Free(false)))
        || (v'.c.l == v.c.l.(ret := -1) && v'.c.pc == Idle))
  }

  lemma EntrySilent(k: Card, v: View, pc: PrePC, ch: Choice)
    requires v.c.pc == Pre(pc)
    ensures Silently(v, EntryStep(k, v, pc, ch))
  {}

  lemma MmioSilent(v: View, pc: MmioPC, ch: Choice)
    requires v.c.pc == Mmio(pc) && !pc.MUser? && v.j.isNotMM
    ensures Silently(v, MmioStep(v, pc, ch))
  {}

  lemma DmaSilent(v: View, pc: DmaPC, ch: Choice)
    requires v.c.pc == Dma(pc) && !pc.DUser? && v.j.isNotMM
    ensures Silently(v, DmaStep(v, pc, ch))
  {}

  lemma WaitSilent(v: View, pc: WaitPC, ch: Choice)
    requires v.c.pc == Wait(pc) && v.j.isNotMM
    ensures Silently(v, WaitStep(v, pc, ch))
  {}

  lemma UnderwaySilent(k: Card, v: View, ch: Choice)
    requires Underway(v.c.pc) && !CopiesOut(v) && v.j.isNotMM
    ensures Silently(v, LocalStep(k, v, ch))
  {
    match v.c.pc
    case Pre(pc) => EntrySilent(k, v, pc, ch);
    case Mmio(pc) => MmioSilent(v, pc, ch);
    case Dma(pc) => DmaSilent(v, pc, ch);
    case Wait(pc) => WaitSilent(v, pc, ch);
  }

  lemma SilentStands(k: Card, key: nat, isE: bool, u: seq<Byte>, length: nat, v: View, v': View)
    requires k.Good() && Stands(k, key, isE, u, length, v) && Underway(v.c.pc) && Silently(v, v')
    ensures Stands(k, key, isE, u, length, v')
  {
    if !Underway(v'.c.pc) {
      NothingOut(k, key, isE, u, length, v'.c);
    }
  }

  lemma LibraryStands(k: Card, key: nat, isE: bool, u: seq<Byte>, length: nat, v: View, pc: LibPC, ch: Choice)
    requires k.Good() && Stands(k, key, isE, u, length, v) && v.c.pc == Lib(pc)
    ensures Stands(k, key, isE, u, length, LibraryStep(v, pc, ch))
  {
    var v' := LibraryStep(v, pc, ch);
    if v'.c.pc.Idle? {
      NothingOut(k, key, isE, u, length, v'.c);
    }
  }

  /** Copying out: the one place where the caller's buffer changes. */
  lemma CopyOutStands(k: Card, key: nat, isE: bool, u: seq<Byte>, length: nat, v: View, data: seq<Byte>, ch: Choice)
    requires k.Good() && Stands(k, key, isE, u, length, v) && Underway(v.c.pc)
    requires 0 < v.c.l.len <= CHUNK && data == k.Cipher(isE, key, u[v.c.l.off..v.c.l.off + v.c.l.len])
    requires ch.Fail? ==> ch.copied < v.c.l.len
    ensures Stands(k, key, isE, u, length, v.(c := CopyOut(v.c, data, ch)))
  {
    ProcessedStep(k, isE, key, u, v.c.l.off, v.c.l.len);
    if ch.Fail? {
      assert PartlyOut(k, key, isE, u, CopyOut(v.c, data, ch), ch.copied);
    }
  }

  /** The chunk is still as it was when the call started. */
  lemma ChunkIsOriginal(k: Card, key: nat, isE: bool, u: seq<Byte>, length: nat, v: View)
    requires k.Good() && Stands(k, key, isE, u, length, v) && Underway(v.c.pc) && 0 < v.c.l.len <= CHUNK
    ensures v.c.l.off + v.c.l.len <= |u| && Chunk(v) == u[v.c.l.off..v.c.l.off + v.c.l.len]
  {
    ProcessedStep(k, isE, key, u, v.c.l.off, v.c.l.len);
  }

  /** What is copied out is the cipher of this chunk of the original buffer. */
  lemma CopyOutData(k: Card, key: nat, isE: bool, u: seq<Byte>, length: nat, v: View, ch: Choice)
    requires k.Good() && LocalOk(v) && SecOk(k, v, true) && Stands(k, key, isE, u, length, v) && CopiesOut(v)
    ensures 0 < v.c.l.len <= CHUNK
    ensures LocalStep(k, v, ch)
      == v.(c := CopyOut(v.c, k.Cipher(isE, key, u[v.c.l.off..v.c.l.off + v.c.l.len]), ch))
  {
    ChunkIsOriginal(k, key, isE, u, length, v);
    CopyOutHolds(k, v);
  }

  lemma UnderwayStep(k: Card, key: nat, isE: bool, u: seq<Byte>, length: nat, v: View, ch: Choice)
    requires k.Good() && LocalOk(v) && SecOk(k, v, true) && Stands(k, key, isE, u, length, v) && ThreadEnabled(v, ch)
    requires Underway(v.c.pc)
    ensures Stands(k, key, isE, u, length, LocalStep(k, v, ch))
  {
    if CopiesOut(v) {
      CopyOutData(k, key, isE, u, length, v, ch);
      CopyOutStands(k, key, isE, u, length, v, k.Cipher(isE, key, u[v.c.l.off..v.c.l.off + v.c.l.len]), ch);
    } else {
      UnderwaySilent(k, v, ch);
      SilentStands(k, key, isE, u, length, v, LocalStep(k, v, ch));
    }
  }

  lemma BrokenKept(k: Card, key: nat, isE: bool, u: seq<Byte>, length: nat, c: Client, c': Client)
    requires c'.user == c.user && c'.l.off == c.l.off && c'.l.len == c.l.len
    ensures Broken(k, key, isE, u, length, c) ==> Broken(k, key, isE, u, length, c')
  {
    if Broken(k, key, isE, u, length, c) {
      var n :| PartlyOut(k, key, isE, u, c, n);
      assert PartlyOut(k, key, isE, u, c', n);
    }
  }

  lemma UpStands(k: Card, key: nat, isE: bool, u: seq<Byte>, length: nat, v: View, ok: bool)
    requires Stands(k, key, isE, u, length, v) && v.c.pc == Up(ok)
    ensures Stands(k, key, isE, u, length,
                   v.(c := v.c.(pc := Free(ok), ups := v.c.ups + 1), g := v.g.(sem := v.g.sem + 1)))
  {
    BrokenKept(k, key, isE, u, length, v.c, v.c.(pc := Free(ok), ups := v.c.ups + 1));
  }

  lemma FreeStands(k: Card, key: nat, isE: bool, u: seq<Byte>, length: nat, v: View, ok: bool)
    requires LocalOk(v) && Stands(k, key, isE, u, length, v) && v.c.pc == Free(ok)
    ensures Stands(k, key, isE, u, length, LocalStep(k, v, Ok))
  {
    if !ok {
      BrokenKept(k, key, isE, u, length, v.c, LocalStep(k, v, Ok).c);
    }
  }

  lemma EndStep(k: Card, key: nat, isE: bool, u: seq<Byte>, length: nat, v: View, ch: Choice)
    requires LocalOk(v) && Stands(k, key, isE, u, length, v) && (v.c.pc.Up? || v.c.pc.Free?)
    ensures Stands(k, key, isE, u, length, LocalStep(k, v, ch))
  {
    if v.c.pc.Up? {
      UpStands(k, key, isE, u, length, v, v.c.pc.ok);
    } else {
      FreeStands(k, key, isE, u, length, v, v.c.pc.ok);
    }
  }

  lemma OwnStep(k: Card, key: nat, isE: bool, u: seq<Byte>, length: nat, v: View, ch: Choice)
    requires k.Good() && LocalOk(v) && SecOk(k, v, true) && Stands(k, key, isE, u, length, v) && ThreadEnabled(v, ch)
    ensures Stands(k, key, isE, u, length, LocalStep(k, v, ch))
  {
    if Underway(v.c.pc) {
      UnderwayStep(k, key, isE, u, length, v, ch);
    } else if v.c.pc.Lib? {
      LibraryStands(k, key, isE, u, length, v, v.c.pc.lib, ch);
    } else {
      EndStep(k, key, isE, u, length, v, ch);
    }
  }

  /** What others do leaves a client's place in its call alone. */
  predicate SamePlace(v: View, v': View) {
    && v'.c.user == v.c.user && v'.c.pc == v.c.pc && v'.c.l == v.c.l
    && v'.j == v.j && v'.c.h == v.c.h
  }

  predicate Concerns(e: Event, t: nat) { (e.Thread? || e.User?) && e.t == t }

  lemma SameHandles(k: Card, s: State, e: Event)
    requires Enabled(s, e)
    ensures var s' := Next(k, s, e);
      && |s'.clients| == |s.clients| && |s'.jobs| == |s.jobs|
      && forall t :: 0 <= t < |s.clients| ==> s'.clients[t].h == s.clients[t].h
  {
    match e
    case Thread(t, ch) => Semaphore.LocalMoves(k, Look(s, t), ch);
    case _ =>
  }

  lemma OthersPlace(k: Card, s: State, e: Event, t: nat)
    requires Enabled(s, e) && Distinct(s) && t < |s.clients| && !Concerns(e, t)
    ensures |Next(k, s, e).clients| == |s.clients| && WellFormed(Next(k, s, e))
    ensures SamePlace(Look(s, t), Look(Next(k, s, e), t))
  {
    SameHandles(k, s, e);
  }

  // ----- theorems over runs -----

  /** A call made at event `i` has not returned before state `j`. */
  ghost predicate Calling(tr: seq<State>, ev: seq<Event>, t: nat, isE: bool, mapped: bool, length: nat, i: nat, j: nat)
    requires |tr| == |ev| + 1
  {
    && i < j <= |ev| && ev[i] == User(t, Call(isE, mapped, length))
    && forall m :: i < m < j ==> t < |tr[m].clients| && !tr[m].clients[t].pc.Idle?
  }

  ghost predicate StandsAt(k: Card, key: nat, isE: bool, u: seq<Byte>, length: nat, s: State, t: nat) {
    WellFormed(s) && t < |s.clients| && Stands(k, key, isE, u, length, Look(s, t))
  }

  lemma {:induction false} StandsChain(k: Card, key: nat, isE: bool, u: seq<Byte>, length: nat,
                                        tr: seq<State>, t: nat, i: nat, j: nat)
    requires i <= j < |tr| && StandsAt(k, key, isE, u, length, tr[i], t)
    requires forall m :: i <= m < j && StandsAt(k, key, isE, u, length, tr[m], t) ==>
      StandsAt(k, key, isE, u, length, tr[m + 1], t)
    ensures StandsAt(k, key, isE, u, length, tr[j], t)
    decreases j
  {
    if i < j { StandsChain(k, key, isE, u, length, tr, t, i, j - 1); }
  }

  lemma Started(k: Card, s: State, t: nat, isE: bool, length: nat)
    requires IsoOk(k, s, t) && Enabled(s, User(t, Call(isE, false, length)))
    ensures var s' := Next(k, s, User(t, Call(isE, false, length)));
      && WellFormed(s') && t < |s'.clients|
      && Stands(k, Look(s, t).j.keyab, isE, s.clients[t].user, length, Look(s', t))
  {
    var u := s.clients[t].user;
    assert Processed(k, isE, Look(s, t).j.keyab, u, 0) == u;
  }

  /** A client that makes a call has no buffer yet. */
  lemma StartsFresh(k: Card, tr: seq<State>, ev: seq<Event>, t: nat, i: nat)
    requires k.Good() && FromStart(k, tr, ev) && i < |ev| && ev[i].User? && ev[i].t == t
    ensures WellFormed(tr[i]) && Fresh(tr[i], t)
  {
    StepFacts(k, tr, ev, i);
    IsoRun(k, tr, ev, i);
    IdleIsFresh(k, tr[i], t);
  }

  /** The first state of a call. */
  lemma CallStarts(k: Card, tr: seq<State>, ev: seq<Event>, t: nat, isE: bool, length: nat, i: nat)
    requires k.Good() && FromStart(k, tr, ev) && i < |ev| && ev[i] == User(t, Call(isE, false, length))
    requires QuietRun(tr, ev, t, i, i)
    ensures WellFormed(tr[i]) && t < |tr[i].clients|
    ensures StandsAt(k, Look(tr[i], t).j.keyab, isE, tr[i].clients[t].user, length, tr[i + 1], t)
  {
    StartsFresh(k, tr, ev, t, i);
    QuietIso(k, tr, ev, t, i, i);
    StepFacts(k, tr, ev, i);
    Started(k, tr[i], t, isE, length);
  }

  lemma PlaceStands(k: Card, key: nat, isE: bool, u: seq<Byte>, length: nat, v: View, v': View)
    requires Stands(k, key, isE, u, length, v) && SamePlace(v, v')
    ensures Stands(k, key, isE, u, length, v')
  {
    BrokenKept(k, key, isE, u, length, v.c, v'.c);
  }

  lemma CallStandsStep(k: Card, s: State, e: Event, t: nat, key: nat, isE: bool, u: seq<Byte>, length: nat)
    requires IsoOk(k, s, t) && Enabled(s, e) && t < |s.clients| && !s.clients[t].pc.Idle?
    requires Stands(k, key, isE, u, length, Look(s, t))
    ensures var s' := Next(k, s, e);
      WellFormed(s') && t < |s'.clients| && Stands(k, key, isE, u, length, Look(s', t))
  {
    SameHandles(k, s, e);
    if Concerns(e, t) {
      assert LocalOk(Look(s, t)) && SecOk(k, Look(s, t), true);
      OwnStep(k, key, isE, u, length, Look(s, t), e.ch);
    } else {
      OthersPlace(k, s, e, t);
      PlaceStands(k, key, isE, u, length, Look(s, t), Look(Next(k, s, e), t));
    }
  }

  lemma StandsOn(k: Card, tr: seq<State>, ev: seq<Event>, t: nat,
                 key: nat, isE: bool, u: seq<Byte>, length: nat, m: nat)
    requires FromStart(k, tr, ev) && m < |ev| && IsoOk(k, tr[m], t) && t < |tr[m].clients|
    requires !tr[m].clients[t].pc.Idle? && Stands(k, key, isE, u, length, Look(tr[m], t))
    ensures WellFormed(tr[m + 1]) && t < |tr[m + 1].clients| && Stands(k, key, isE, u, length, Look(tr[m + 1], t))
  {
    assert Enabled(tr[m], ev[m]) && tr[m + 1] == Next(k, tr[m], ev[m]);
    CallStandsStep(k, tr[m], ev[m], t, key, isE, u, length);
  }

  lemma CallStands(k: Card, tr: seq<State>, ev: seq<Event>, t: nat, isE: bool, length: nat, i: nat, j: nat)
    requires k.Good() && FromStart(k, tr, ev) && Calling(tr, ev, t, isE, false, length, i, j)
    requires QuietRun(tr, ev, t, i, j)
    ensures WellFormed(tr[i]) && WellFormed(tr[j]) && t < |tr[i].clients| && t < |tr[j].clients|
    ensures Stands(k, Look(tr[i], t).j.keyab, isE, tr[i].clients[t].user, length, Look(tr[j], t))
  {
    StartsFresh(k, tr, ev, t, i);
    CallStarts(k, tr, ev, t, isE, length, i);
    var key, u := Look(tr[i], t).j.keyab, tr[i].clients[t].user;
    forall m | i + 1 <= m < j && StandsAt(k, key, isE, u, length, tr[m], t)
      ensures StandsAt(k, key, isE, u, length, tr[m + 1], t)
    {
      QuietIso(k, tr, ev, t, i, m);
      StandsOn(k, tr, ev, t, key, isE, u, length, m);
    }
    StandsChain(k, key, isE, u, length, tr, t, i + 1, j);
  }

  /**
   * Isolation of a library call. Whatever the transfer mode and whatever the other clients, the
   * card and the handler do in between, signals and forgotten operations included, as long as
   * nothing disturbs the caller's own kernel buffer and message: if the call returns 0 its
   * buffer is the chunked cipher of its own old bytes under its own key and direction, and it was not empty.
   * Otherwise it returns ERROR with the whole earlier chunks done, part of one chunk at most.
   */
  lemma CallEffect(k: Card, tr: seq<State>, ev: seq<Event>, t: nat, isE: bool, length: nat, i: nat, j: nat)
    requires k.Good() && FromStart(k, tr, ev) && Calling(tr, ev, t, isE, false, length, i, j)
    requires QuietRun(tr, ev, t, i, j)
    requires t < |tr[i].clients| && WellFormed(tr[i]) && t < |tr[j].clients| && tr[j].clients[t].pc.Idle?
    ensures length <= |tr[i].clients[t].user|
    ensures var u, key, c := tr[i].clients[t].user, Look(tr[i], t).j.keyab, tr[j].clients[t];
      if c.l.ret == 0 then length > 0 && c.user == Processed(k, isE, key, u, length)
      else c.l.ret == -1 && Broken(k, key, isE, u, length, c)
  {
    CallStands(k, tr, ev, t, isE, length, i, j);
  }

  /** The transfer mode is fixed from the start of a call to its end. */
  predicate SameMode(j: Job, j': Job) { j'.isM == j.isM && j'.isI == j.isI }

  lemma LibraryMode(v: View, pc: LibPC, ch: Choice)
    ensures SameMode(v.j, LibraryStep(v, pc, ch).j)
  {}

  lemma EntryMode(k: Card, v: View, pc: PrePC, ch: Choice)
    ensures SameMode(v.j, EntryStep(k, v, pc, ch).j)
  {}

  lemma OwnMode(k: Card, v: View, ch: Choice)
    ensures SameMode(v.j, LocalStep(k, v, ch).j)
  {
    match v.c.pc
    case Idle =>
    case Lib(pc) => LibraryMode(v, pc, ch);
    case Pre(pc) => EntryMode(k, v, pc, ch);
    case Mmio(pc) => assert MmioStep(v, pc, ch).j == v.j;
    case Dma(pc) => assert DmaStep(v, pc, ch).j == v.j;
    case Wait(pc) => assert WaitStep(v, pc, ch).j == v.j;
    case Up(_) =>
    case Free(_) =>
  }

  lemma ModeStep(k: Card, s: State, e: Event, t: nat)
    requires Enabled(s, e) && Distinct(s) && t < |s.clients| && (e.User? && e.t == t ==> e.u.Call?)
    ensures t < |Next(k, s, e).clients| && WellFormed(Next(k, s, e))
    ensures SameMode(Look(s, t).j, Look(Next(k, s, e), t).j)
  {
    SameHandles(k, s, e);
    if Concerns(e, t) {
      if e.Thread? { OwnMode(k, Look(s, t), e.ch); }
    } else {
      OthersPlace(k, s, e, t);
    }
  }

  lemma ModeOn(k: Card, tr: seq<State>, ev: seq<Event>, t: nat, m: nat)
    requires k.Good() && FromStart(k, tr, ev) && m < |ev| && t < |tr[m].clients|
    requires ev[m].User? && ev[m].t == t ==> ev[m].u.Call?
    ensures WellFormed(tr[m]) && WellFormed(tr[m + 1]) && t < |tr[m + 1].clients|
    ensures SameMode(Look(tr[m], t).j, Look(tr[m + 1], t).j)
  {
    StepFacts(k, tr, ev, m);
    ModeStep(k, tr[m], ev[m], t);
  }

  /** During a call the client makes no other. */
  lemma NoOtherCall(k: Card, tr: seq<State>, ev: seq<Event>, t: nat, isE: bool, mapped: bool,
                    length: nat, i: nat, j: nat, m: nat)
    requires k.Good() && FromStart(k, tr, ev) && Calling(tr, ev, t, isE, mapped, length, i, j) && i <= m < j
    ensures WellFormed(tr[m]) && t < |tr[m].clients| && (ev[m].User? && ev[m].t == t ==> ev[m].u.Call?)
  {
    StepFacts(k, tr, ev, m);
  }

  predicate ModeSame(s: State, s': State, t: nat) {
    WellFormed(s) && WellFormed(s') && t < |s.clients| && t < |s'.clients| && SameMode(Look(s, t).j, Look(s', t).j)
  }

  lemma {:induction false} ModeChain(tr: seq<State>, t: nat, i: nat, m: nat)
    requires i <= m < |tr| && ModeSame(tr[i], tr[i], t)
    requires forall n :: i <= n < m && t < |tr[n].clients| ==> ModeSame(tr[n], tr[n + 1], t)
    ensures ModeSame(tr[i], tr[m], t)
    decreases m
  {
    if i < m { ModeChain(tr, t, i, m - 1); }
  }

  lemma ModeKept(k: Card, tr: seq<State>, ev: seq<Event>, t: nat, isE: bool, mapped: bool,
                 length: nat, i: nat, j: nat, m: nat)
    requires k.Good() && FromStart(k, tr, ev) && Calling(tr, ev, t, isE, mapped, length, i, j) && i <= m < j
    ensures ModeSame(tr[i], tr[m], t)
  {
    NoOtherCall(k, tr, ev, t, isE, mapped, length, i, j, i);
    forall n | i <= n < m && t < |tr[n].clients|
      ensures ModeSame(tr[n], tr[n + 1], t)
    {
      NoOtherCall(k, tr, ev, t, isE, mapped, length, i, j, n);
      ModeOn(k, tr, ev, t, n);
    }
    ModeChain(tr, t, i, m);
  }

  /** The client is given no memory on which a forgotten operation is still to replace bytes. */
  ghost predicate OwnMemory(tr: seq<State>, ev: seq<Event>, t: nat, i: nat, j: nat)
    requires |tr| == |ev| + 1 && j <= |ev|
  {
    forall m :: i <= m < j && WellFormed(tr[m]) && t < |tr[m].clients| && ev[m].Thread? && ev[m].t == t ==>
      !Inherits(Look(tr[m], t), ev[m].ch)
  }

  /** A caller that uses DMA has nothing in the window, so it does not matter what happens there. */
  lemma DmaIsQuiet(k: Card, tr: seq<State>, ev: seq<Event>, t: nat, isE: bool, length: nat, i: nat, j: nat)
    requires k.Good() && FromStart(k, tr, ev) && Calling(tr, ev, t, isE, false, length, i, j)
    requires t < |tr[i].clients| && WellFormed(tr[i]) && !Look(tr[i], t).j.isM && OwnMemory(tr, ev, t, i, j)
    ensures QuietRun(tr, ev, t, i, j)
  {
    forall m | i <= m < j
      ensures WellFormed(tr[m]) && Undisturbed(tr[m], ev[m], t)
    {
      ModeKept(k, tr, ev, t, isE, false, length, i, j, m);
    }
  }

  /**
   * Isolation of a DMA caller in every run that does not give it memory on which a forgotten
   * operation is still to replace bytes: mapped processes may store into the window wherever
   * and whenever they like, and waits of others may be cut short at any time.
   */
  lemma DmaCallEffect(k: Card, tr: seq<State>, ev: seq<Event>, t: nat, isE: bool, length: nat, i: nat, j: nat)
    requires k.Good() && FromStart(k, tr, ev) && Calling(tr, ev, t, isE, false, length, i, j)
    requires t < |tr[i].clients| && WellFormed(tr[i]) && !Look(tr[i], t).j.isM && OwnMemory(tr, ev, t, i, j)
    requires t < |tr[j].clients| && tr[j].clients[t].pc.Idle?
    ensures length <= |tr[i].clients[t].user|
    ensures var u, key, c := tr[i].clients[t].user, Look(tr[i], t).j.keyab, tr[j].clients[t];
      if c.l.ret == 0 then length > 0 && c.user == Processed(k, isE, key, u, length)
      else c.l.ret == -1 && Broken(k, key, isE, u, length, c)
  {
    DmaIsQuiet(k, tr, ev, t, isE, length, i, j);
    CallEffect(k, tr, ev, t, isE, length, i, j);
  }

  /** Between calls only the client itself touches its buffer, and configuring keeps the key. */
  ghost predicate OnlyConfigures(ev: seq<Event>, t: nat, j: nat, p: nat)
    requires p <= |ev|
  {
    forall m :: j <= m < p && Concerns(ev[m], t) ==> ev[m].User? && ev[m].u.SetConfig?
  }

  lemma IdleStep(k: Card, s: State, e: Event, t: nat)
    requires Enabled(s, e) && Distinct(s) && t < |s.clients| && s.clients[t].pc.Idle?
    requires Concerns(e, t) ==> e.User? && e.u.SetConfig?
    ensures var s' := Next(k, s, e);
      && WellFormed(s') && t < |s'.clients|
      && s'.clients[t].user == s.clients[t].user && s'.clients[t].pc.Idle?
      && Look(s', t).j.keyab == Look(s, t).j.keyab
  {
    SameHandles(k, s, e);
    if !Concerns(e, t) { OthersPlace(k, s, e, t); }
  }

  /** Between calls, with the same buffer and key. */
  predicate IdleSame(s: State, s': State, t: nat) {
    && WellFormed(s) && WellFormed(s') && t < |s.clients| && t < |s'.clients|
    && s.clients[t].pc.Idle? && s'.clients[t].pc.Idle?
    && s'.clients[t].user == s.clients[t].user && Look(s', t).j.keyab == Look(s, t).j.keyab
  }

  lemma {:induction false} IdleChain(tr: seq<State>, t: nat, j: nat, p: nat)
    requires j <= p < |tr| && IdleSame(tr[j], tr[j], t)
    requires forall m :: j <= m < p && IdleSame(tr[m], tr[m], t) ==> IdleSame(tr[m], tr[m + 1], t)
    ensures IdleSame(tr[j], tr[p], t)
    decreases p
  {
    if j < p {
      IdleChain(tr, t, j, p - 1);
      assert IdleSame(tr[p - 1], tr[p - 1], t);
    }
  }

  /** One event between two calls. */
  lemma IdleOn(k: Card, tr: seq<State>, ev: seq<Event>, t: nat, m: nat)
    requires k.Good() && FromStart(k, tr, ev) && m < |ev| && t < |tr[m].clients| && tr[m].clients[t].pc.Idle?
    requires Concerns(ev[m], t) ==> ev[m].User? && ev[m].u.SetConfig?
    ensures IdleSame(tr[m], tr[m + 1], t)
  {
    StepFacts(k, tr, ev, m);
    IdleStep(k, tr[m], ev[m], t);
  }

  lemma IdleKeeps(k: Card, tr: seq<State>, ev: seq<Event>, t: nat, j: nat, p: nat)
    requires k.Good() && FromStart(k, tr, ev) && j <= p <= |ev| && OnlyConfigures(ev, t, j, p)
    requires t < |tr[j].clients| && tr[j].clients[t].pc.Idle?
    ensures IdleSame(tr[j], tr[p], t)
  {
    StepFacts(k, tr, ev, j);
    forall m | j <= m < p && IdleSame(tr[m], tr[m], t)
      ensures IdleSame(tr[m], tr[m + 1], t)
    {
      IdleOn(k, tr, ev, t, m);
    }
    IdleChain(tr, t, j, p);
  }

  /**
   * End to end: a successful encrypt and a successful decrypt of the same bytes on one handle
   * restore the buffer, for every length and every interleaving with the other clients, even
   * if the handle is reconfigured (DMA, INTERRUPT) in between.
   */
  lemma RoundTrip(k: Card, tr: seq<State>, ev: seq<Event>, t: nat, length: nat, i: nat, j: nat, p: nat, q: nat)
    requires k.Good() && FromStart(k, tr, ev) && j <= p
    requires Calling(tr, ev, t, true, false, length, i, j) && Calling(tr, ev, t, false, false, length, p, q)
    requires t < |tr[j].clients| && tr[j].clients[t].pc.Idle? && tr[j].clients[t].l.ret == 0
    requires QuietRun(tr, ev, t, i, j) && QuietRun(tr, ev, t, p, q) && OnlyConfigures(ev, t, j, p)
    requires t < |tr[q].clients| && tr[q].clients[t].pc.Idle? && tr[q].clients[t].l.ret == 0
    ensures t < |tr[i].clients| && tr[q].clients[t].user == tr[i].clients[t].user
  {
    CallStands(k, tr, ev, t, true, length, i, j);
    IdleKeeps(k, tr, ev, t, j, p);
    CallStands(k, tr, ev, t, false, length, p, q);
    ProcessedInverse(k, Look(tr[i], t).j.keyab, tr[i].clients[t].user, length);
  }
}
