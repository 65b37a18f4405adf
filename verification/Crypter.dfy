/** The user library: `encrypt` and `decrypt` cut a buffer into writes of at most 32768 bytes. */
module Crypter {
  import opened Types
  import opened Ioctl
  import opened Driver
  import Bar
  import Chunks
  import Windows

  const ERROR := -1

  // ----- how a buffer is cut -----

  /** How many writes a call issues when all succeed: one even for length 0. */
  function WritesFor(length: nat): nat { if length == 0 then 1 else (length + CHUNK - 1) / CHUNK }

  /** Where the `i`-th write of a call starts, and how long it is. */
  function Start(i: nat): nat { i * CHUNK }
  function Size(length: nat, i: nat): nat { if Start(i) <= length then Min(length - Start(i), CHUNK) else 0 }

  /** One `write` system call: the offset of its bytes in the caller's buffer and their number. */
  datatype Write = Write(at: int, count: int)

  /** The writes issued: consecutive, disjoint, none longer than a chunk. */
  predicate Tiled(writes: seq<Write>, length: nat) {
    && |writes| <= WritesFor(length)
    && forall i :: 0 <= i < |writes| ==> writes[i] == Write(Start(i), Size(length, i))
  }

  /** The tiles of a complete call cover the buffer exactly, in order. */
  lemma TilesCover(length: nat, i: nat)
    requires length > 0 && i < WritesFor(length)
    ensures 0 < Size(length, i) <= 32768 && Start(i) == 32768 * i && Start(i) + Size(length, i) <= length
    ensures i + 1 < WritesFor(length) ==> Start(i + 1) == Start(i) + Size(length, i)
    ensures i + 1 == WritesFor(length) ==> Start(i) + Size(length, i) == length
  {}

  /** After `n` writes: `off` bytes issued and `rem` to go. */
  predicate Cursor(length: nat, n: nat, off: nat, rem: nat) {
    && off + rem == length && n <= WritesFor(length)
    && if n > 0 && rem == 0 then n == WritesFor(length) else n < WritesFor(length) && off == Start(n)
  }

  /** Where the loop stands. */
  predicate Stands(length: nat, writes: seq<Write>, off: nat, rem: nat, first: bool) {
    Tiled(writes, length) && Cursor(length, |writes|, off, rem) && (first <==> writes == [])
  }

  lemma CursorOn(length: nat, n: nat, off: nat, rem: nat)
    requires Cursor(length, n, off, rem) && (n == 0 || rem > 0)
    ensures off == Start(n) <= length && Min(rem, CHUNK) == Size(length, n) && n < WritesFor(length)
    ensures Cursor(length, n + 1, off + Min(rem, CHUNK), rem - Min(rem, CHUNK))
  {}

  lemma TiledOn(length: nat, writes: seq<Write>)
    requires Tiled(writes, length) && |writes| < WritesFor(length)
    ensures Tiled(writes + [Write(Start(|writes|), Size(length, |writes|))], length)
  {}

  lemma Advance(length: nat, writes: seq<Write>, off: nat, rem: nat, first: bool)
    requires Stands(length, writes, off, rem, first) && (first || rem > 0)
    ensures off == Start(|writes|) <= length && Min(rem, CHUNK) == Size(length, |writes|)
    ensures |writes| < WritesFor(length)
    ensures var n := Min(rem, CHUNK); Stands(length, writes + [Write(off, n)], off + n, rem - n, false)
  {
    CursorOn(length, |writes|, off, rem);
    TiledOn(length, writes);
  }

  // ----- what a call does -----

  /** A call as it was made: the card, the settings, the caller's memory, the window, the length, the world. */
  datatype Request = Request(k: Card, j: Job, u: seq<Byte>, win: seq<Byte>, length: nat, worlds: nat -> World)
  {
    /** The call runs on this card, with a handle whose settings are still those of the start. */
    ghost predicate Fits(card: Card, now: Job) {
      && k == card && now.(len := 0) == j.(len := 0) && j.keyab < 0x1_0000_0000
      && (forall i :: worlds(i).name < Bar.Power(8)) && (j.isNotMM ==> length <= |u|)
    }

    /** What the `i`-th write returns. */
    function Nth(i: nat): int { Verdict(j, k.alive, Size(length, i), worlds(i)) }

    predicate AllZero(n: nat) { forall i :: 0 <= i < n ==> Nth(i) == 0 }

    /** The caller's memory after `n` writes, each of which does what `pci_write` says. */
    function Memory(n: nat): (m: seq<Byte>)
      requires j.isNotMM ==> length <= |u|
      ensures |m| == |u|
    {
      if n == 0 || !j.isNotMM then u
      else if Start(n - 1) > length then Memory(n - 1)
      else Outcome(k, j, Memory(n - 1), Start(n - 1), Size(length, n - 1), worlds(n - 1))
    }

    /** An unmapped caller's memory when its first `d` bytes are done and nothing else has changed. */
    function Done(d: nat): seq<Byte>
      requires d <= |u|
    {
      Chunks.Processed(k, j.isE, j.keyab, u, d)
    }

    /** The window once `n` mapped writes have returned 0; a write that fails leaves it alone. */
    function Window(n: nat): seq<Byte> {
      if n == 0 || j.isNotMM then win else Windows.Pass(k, j.isE, j.keyab, Window(n - 1), Size(length, n - 1))
    }

    /** Of `n` writes that ended in `ret`, those that returned 0. */
    function Good(ret: int, n: nat): nat
      requires n > 0
    {
      if ret == 0 then n else n - 1
    }

    /** `n` writes, all but perhaps the last of which returned 0. */
    predicate Ended(ret: int, n: nat) {
      && 0 < n <= WritesFor(length) && AllZero(n - 1)
      && if Nth(n - 1) == 0 then ret == 0 && n == WritesFor(length) else ret == ERROR
    }
  }

  /** `n` writes of a call have returned 0, and there are more to come. */
  ghost predicate Underway(drv: CardDriver, job: Handle, user: Buffer, r: Request, n: nat)
    reads drv, drv.bar, drv.bar.mem, job, user
  {
    && drv.Rested() && job.msg == null && r.Fits(drv.card, job.Value()) && r.AllZero(n)
    && user.bytes == r.Memory(n) && (!r.j.isNotMM ==> drv.bar.io.window == r.Window(n))
  }

  /** The call has ended with its `n`-th write: the caller's memory, the window, the handle, the card. */
  ghost predicate Over(drv: CardDriver, job: Handle, user: Buffer, r: Request, ret: int, n: nat)
    reads drv, drv.bar, drv.bar.mem, job, user
  {
    && job.msg == null && r.Fits(drv.card, job.Value()) && r.Ended(ret, n) && user.bytes == r.Memory(n)
    && (!r.j.isNotMM ==> drv.bar.io.window == r.Window(r.Good(ret, n)))
    && (ret == 0 ==> drv.Rested())
  }

  /** The `n`-th `write` of a call. */
  method WriteChunk(drv: CardDriver, job: Handle, user: Buffer, off: nat, count: nat, w: World,
                    ghost r: Request, ghost n: nat)
    returns (err: int)
    requires drv.card.Good() && Underway(drv, job, user, r, n) && n < WritesFor(r.length)
    requires w == r.worlds(n) && off == Start(n) <= r.length && count == Size(r.length, n)
    modifies drv, drv.bar, drv.bar.mem, job`len, job`msg, user
    ensures if err == 0 then Underway(drv, job, user, r, n + 1) else Over(drv, job, user, r, ERROR, n + 1)
  {
    err := drv.PciWrite(job, user, off, count, w);
  }

  lemma FirstWrite(drv: CardDriver, job: Handle, user: Buffer, length: nat, worlds: nat -> World)
    requires drv.Rested() && job.msg == null && job.keyab < 0x1_0000_0000
    requires (forall i :: worlds(i).name < Bar.Power(8)) && (job.isNotMM ==> length <= |user.bytes|)
    ensures var r := Request(drv.card, job.Value(), user.bytes, drv.bar.io.window, length, worlds);
      Underway(drv, job, user, r, 0)
  {}

  lemma LastWrite(drv: CardDriver, job: Handle, user: Buffer, r: Request, n: nat)
    requires Underway(drv, job, user, r, n) && n == WritesFor(r.length)
    ensures Over(drv, job, user, r, 0, n)
  {}

  /**
   * The loop shared by `encrypt` and `decrypt`. The writes tile the buffer, and the call
   * returns 0 exactly when all of them do; the first failing one ends it with ERROR.
   */
  method WriteLoop(drv: CardDriver, job: Handle, user: Buffer, length: nat, worlds: nat -> World)
    returns (ret: int, writes: seq<Write>)
    requires drv.card.Good() && drv.Rested() && job.msg == null && job.keyab < 0x1_0000_0000
    requires forall i :: worlds(i).name < Bar.Power(8)
    requires job.isNotMM ==> length <= |user.bytes|
    modifies drv, drv.bar, drv.bar.mem, job`len, job`msg, user
    ensures Tiled(writes, length)
    ensures var r := Request(drv.card, old(job.Value()), old(user.bytes), old(drv.bar.io).window, length, worlds);
      Over(drv, job, user, r, ret, |writes|)
  {
    writes := [];
    var off: nat, rem: nat, first := 0, length, true;
    ghost var r := Request(drv.card, job.Value(), user.bytes, drv.bar.io.window, length, worlds);
    FirstWrite(drv, job, user, length, worlds);
    while first || rem > 0
      invariant Underway(drv, job, user, r, |writes|)
      invariant Stands(length, writes, off, rem, first)
      decreases if first then 1 else 0, rem
    {
      Advance(length, writes, off, rem, first);
      var count := if rem > CHUNK then CHUNK else rem;
      rem := if rem > CHUNK then rem - CHUNK else 0;
      var err := WriteChunk(drv, job, user, off, count, worlds(|writes|), r, |writes|);
      writes := writes + [Write(off, count)];
      if err != 0 {
        ret := ERROR;
        return;
      }
      off, first := off + count, false;
    }
    LastWrite(drv, job, user, r, |writes|);
    ret := rem;
  }

  /** Shifting by eight and or-ing the second component in: the words do not overlap. */
  lemma KeyBytes(a: Byte, b: Byte)
    ensures ((a as bv32 << 8) | b as bv32) as int == a as int * 256 + b as int
  {
    assert ((a as bv32 << 8) | b as bv32) == (a as bv32) * 256 + b as bv32;
  }

  /** `set_key`; the word is the shift and or of `KeyBytes`. */
  method SetKey(job: Handle, a: Byte, b: Byte, readable: bool) returns (ret: int)
    modifies job
    ensures (job.Value(), ret) == SetKeyCall(old(job.Value()), a, b, readable) && job.msg == old(job.msg)
    ensures ret == if readable then 0 else -1
    ensures job.Value() == old(job.Value()).(
      keyab := if readable then a as int * 256 + b as int else old(job.keyab))
  {
    KeyBytes(a, b);
    var err := job.Ioctl(Command.SetKey(a as int * 256 + b as int), readable);
    return if err != 0 then ERROR else 0;
  }

  /** `set_config`. */
  method SetConfig(job: Handle, kind: Kind, value: Byte, readable: bool) returns (ret: int)
    modifies job
    ensures (job.Value(), ret) == SetConfigCall(old(job.Value()), kind, value, readable) && job.msg == old(job.msg)
    ensures ret == if readable then 0 else -1
    ensures job.Value() ==
      if !readable then old(job.Value())
      else if kind == Kind.Dma && value as int <= 1 then old(job.Value()).(isM := value as int == 0)
      else old(job.Value()).(isI := kind == Kind.Interrupt && value as int == 1)
  {
    var v := NOINTERRUPT;
    if kind.Dma? && value as int == SET {
      v := DMA;
    } else if kind.Dma? && value as int == UNSET {
      v := MMIO;
    } else if kind.Interrupt? && value as int == SET {
      v := INTERRUPT;
    }
    var err := job.Ioctl(Command.SetConfig(v), readable);
    return if err != 0 then ERROR else 0;
  }

  // ----- what the writes of a call add up to -----

  /** One more tile. */
  lemma TileSum(length: nat, n: nat)
    requires 0 < n <= WritesFor(length)
    ensures Start(n - 1) <= length && Start(n - 1) + Size(length, n - 1) == Min(Start(n), length)
    ensures Start(n - 1) % CHUNK == 0 && Size(length, n - 1) <= CHUNK
    ensures Start(n) < length ==> Size(length, n - 1) == CHUNK
  {}

  /** A write that returns 0 has delivered everything. */
  lemma ZeroDelivers(j: Job, alive: bool, n: nat, w: World)
    requires j.isNotMM && Verdict(j, alive, n, w) == 0
    ensures n > 0 && CopiesOut(j, alive, n, w) && !CopyFails(n, w)
  {}

  /** A successful unmapped write takes the buffer one chunk further. */
  lemma ChunkDone(r: Request, off: nat, n: nat, w: World)
    requires r.k.Good() && r.j.isNotMM && off % CHUNK == 0 && n <= CHUNK && off + n <= |r.u|
    requires Verdict(r.j, r.k.alive, n, w) == 0
    ensures n > 0 && |r.Done(off)| == |r.u| && Outcome(r.k, r.j, r.Done(off), off, n, w) == r.Done(off + n)
  {
    ZeroDelivers(r.j, r.k.alive, n, w);
    Chunks.ProcessedStep(r.k, r.j.isE, r.j.keyab, r.u, off, n);
    assert |r.k.Cipher(r.j.isE, r.j.keyab, r.u[off..off + n])| == n;
  }

  lemma MemoryOn(r: Request, n: nat)
    requires r.k.Good() && r.j.isNotMM && r.length <= |r.u| && 0 < n <= WritesFor(r.length) && r.Nth(n - 1) == 0
    requires r.Memory(n - 1) == r.Done(Min(Start(n - 1), r.length))
    ensures r.length > 0 && r.Memory(n) == r.Done(Min(Start(n), r.length))
  {
    TileSum(r.length, n);
    ChunkDone(r, Start(n - 1), Size(r.length, n - 1), r.worlds(n - 1));
  }

  /** After `n` successful writes exactly the first `n` chunks have been through the cipher. */
  lemma {:induction false} MemoryAfter(r: Request, n: nat)
    requires r.k.Good() && r.j.isNotMM && r.length <= |r.u| && n <= WritesFor(r.length) && r.AllZero(n)
    ensures n > 0 ==> r.length > 0
    ensures r.Memory(n) == r.Done(Min(Start(n), r.length))
  {
    if n == 0 {
      assert r.Done(0) == r.u;
    } else {
      MemoryAfter(r, n - 1);
      assert r.Nth(n - 1) == 0;
      MemoryOn(r, n);
    }
  }

  lemma WindowOn(r: Request, n: nat)
    requires r.k.Good() && !r.j.isNotMM && 0 < n <= WritesFor(r.length)
    ensures Windows.Passes(r.k, r.j.isE, r.j.keyab, r.Window(n), r.length - Min(Start(n), r.length))
      == Windows.Passes(r.k, r.j.isE, r.j.keyab, r.Window(n - 1), r.length - Min(Start(n - 1), r.length))
  {
    TileSum(r.length, n);
    var rem := r.length - Min(Start(n), r.length);
    Windows.OnePass(r.k, r.j.isE, r.j.keyab, r.Window(n - 1), Size(r.length, n - 1), rem);
  }

  /** Once `n` mapped writes have returned 0 the window is `n` passes on its way. */
  lemma {:induction false} WindowAfter(r: Request, n: nat)
    requires r.k.Good() && !r.j.isNotMM && n <= WritesFor(r.length)
    ensures Windows.Passes(r.k, r.j.isE, r.j.keyab, r.Window(n), r.length - Min(Start(n), r.length))
      == Windows.Passes(r.k, r.j.isE, r.j.keyab, r.win, r.length)
  {
    if n > 0 {
      WindowAfter(r, n - 1);
      WindowOn(r, n);
    }
  }

  /** A call returns 0 exactly when every one of its writes does; then all of it has been done. */
  lemma CallDone(r: Request, ret: int, n: nat)
    requires r.k.Good() && r.Ended(ret, n) && (r.j.isNotMM ==> r.length <= |r.u|)
    ensures ret == 0 <==> r.AllZero(WritesFor(r.length))
    ensures ret == 0 ==> n == WritesFor(r.length)
    ensures ret == 0 && r.j.isNotMM ==> r.length > 0
    ensures ret == 0 && r.j.isNotMM ==> r.Memory(n) == r.Done(r.length)
    ensures ret == 0 && !r.j.isNotMM ==> r.Window(n) == Windows.Passes(r.k, r.j.isE, r.j.keyab, r.win, r.length)
  {
    if ret == 0 {
      if r.j.isNotMM {
        MemoryAfter(r, n);
      } else {
        WindowAfter(r, n);
        Windows.EmptyPass(r.k, r.j.isE, r.j.keyab, r.Window(n));
      }
    }
  }

  /** A write reaches only its own bytes, and none before it begins to copy out. */
  lemma OutcomeFrame(k: Card, j: Job, u: seq<Byte>, ptr: nat, len: nat, w: World)
    requires k.Good() && ptr + len <= |u|
    ensures var v := Outcome(k, j, u, ptr, len, w);
      && |v| == |u| && v[..ptr] == u[..ptr] && v[ptr + len..] == u[ptr + len..]
      && (!CopiesOut(j, k.alive, len, w) ==> v == u)
  {
    var c := k.Cipher(j.isE, j.keyab, u[ptr..ptr + len]);
    assert |c| == len;
  }

  lemma Untouched(r: Request, d: nat, size: nat)
    requires r.k.Good() && d + size <= |r.u|
    ensures |r.Done(d)| == |r.u| && r.Done(d)[d + size..] == r.u[d + size..]
  {
    Chunks.ChunkedLength(r.k, r.j.isE, r.j.keyab, r.u[..d]);
  }

  /**
   * A call whose `n`-th write fails returns ERROR with the chunks before it done and those
   * after it untouched; if that write had not begun to copy out, its own chunk is untouched too.
   */
  lemma CallFailed(r: Request, ret: int, n: nat)
    requires r.k.Good() && r.Ended(ret, n) && ret != 0 && r.j.isNotMM && r.length <= |r.u|
    ensures ret == ERROR && Start(n - 1) + Size(r.length, n - 1) <= r.length
    ensures var d, size := Start(n - 1), Size(r.length, n - 1);
      && |r.Done(d)| == |r.u| && r.Memory(n)[..d] == r.Done(d)[..d] && r.Memory(n)[d + size..] == r.u[d + size..]
      && (!CopiesOut(r.j, r.k.alive, size, r.worlds(n - 1)) ==> r.Memory(n) == r.Done(d))
  {
    var d, size := Start(n - 1), Size(r.length, n - 1);
    MemoryAfter(r, n - 1);
    TileSum(r.length, n);
    OutcomeFrame(r.k, r.j, r.Done(d), d, size, r.worlds(n - 1));
    Untouched(r, d, size);
  }

  /** An unmapped call for no bytes still issues one write, which the driver refuses. */
  lemma EmptyCall(r: Request, ret: int, n: nat)
    requires r.Ended(ret, n) && r.j.isNotMM && r.length == 0
    ensures ret == ERROR && n == 1 && r.Memory(n) == r.u
  {}

  /** Encrypting and decrypting the same bytes under one key restores them, whatever the transfer modes. */
  lemma CallsInverse(e: Request, d: Request, n: nat, m: nat)
    requires e.k.Good() && e.k == d.k && e.j.isNotMM && d.j.isNotMM && e.j.isE && !d.j.isE
    requires e.j.keyab == d.j.keyab && e.length == d.length <= |e.u|
    requires e.Ended(0, n) && d.u == e.Memory(n) && d.Ended(0, m)
    ensures d.Memory(m) == e.u
  {
    CallDone(e, 0, n);
    Chunks.ProcessedInverse(e.k, e.j.keyab, e.u, e.length);
    CallDone(d, 0, m);
  }

  // ----- the calls themselves -----

  /** Nothing fails in the world of one write. */
  predicate GoesWell(w: World) {
    w.allocates && w.readable && !w.downSignal && w.maps && w.signalAt.None? && w.copied.None?
  }

  ghost predicate AllGoWell(worlds: nat -> World) { forall i :: GoesWell(worlds(i)) }

  /** A write in which nothing fails returns 0. */
  lemma WriteGoesWell(r: Request, i: nat)
    requires GoesWell(r.worlds(i)) && r.k.alive && i < WritesFor(r.length)
    requires if r.j.isNotMM then r.length > 0 else r.j.isM
    ensures r.Nth(i) == 0
  {
    ZeroExactly(r.j, r.k.alive, Size(r.length, i), r.worlds(i));
    if r.length > 0 { TilesCover(r.length, i); }
  }

  /** What has been done when the writes of a call have come to their end. */
  lemma CallEnds(r: Request, ret: int, n: nat)
    requires r.k.Good() && r.Ended(ret, n) && (r.j.isNotMM ==> r.length <= |r.u|)
    ensures ret == 0 || ret == -1
    ensures !r.j.isNotMM ==> r.Memory(n) == r.u
    ensures ret == 0 && r.j.isNotMM ==> r.length > 0
    ensures ret == 0 && r.j.isNotMM ==> r.Memory(n) == Chunks.Processed(r.k, r.j.isE, r.j.keyab, r.u, r.length)
    ensures ret == 0 && !r.j.isNotMM ==>
      r.Window(r.Good(ret, n)) == Windows.Passes(r.k, r.j.isE, r.j.keyab, r.win, r.length)
    ensures r.k.alive && AllGoWell(r.worlds) && (if r.j.isNotMM then r.length > 0 else r.j.isM) ==>
      ret == 0
  {
    CallDone(r, ret, n);
    if r.k.alive && AllGoWell(r.worlds) && (if r.j.isNotMM then r.length > 0 else r.j.isM) {
      forall i | 0 <= i < WritesFor(r.length)
        ensures r.Nth(i) == 0
      {
        WriteGoesWell(r, i);
      }
    }
  }

  /** The settings a library call asks for before it writes. */
  function Asked(j: Job, isE: bool, isMapped: bool): Job { j.(isE := isE, isNotMM := !isMapped) }

  /** `encrypt`: two ioctls, then the writes. An ioctl that fails ends the call with nothing written. */
  method Encrypt(drv: CardDriver, job: Handle, user: Buffer, length: nat, isMapped: bool,
                 readable: (bool, bool), worlds: nat -> World)
    returns (ret: int, writes: seq<Write>)
    requires drv.card.Good() && drv.Rested() && job.msg == null && job.keyab < 0x1_0000_0000
    requires forall i :: worlds(i).name < Bar.Power(8)
    requires !isMapped ==> length <= |user.bytes|
    modifies drv, drv.bar, drv.bar.mem, job, user
    ensures job.msg == null
    ensures !(readable.0 && readable.1) ==> ret == ERROR && writes == [] && user.bytes == old(user.bytes)
    ensures readable.0 && readable.1 ==>
      var r := Request(drv.card, Asked(old(job.Value()), true, isMapped), old(user.bytes), old(drv.bar.io).window,
                       length, worlds);
      Tiled(writes, length) && Over(drv, job, user, r, ret, |writes|)
    ensures ret == 0 || ret == -1
    ensures job.isM == old(job.isM) && job.isI == old(job.isI) && job.keyab == old(job.keyab)
    ensures ret == 0 ==> drv.Rested() && job.isE && job.isNotMM == !isMapped
    ensures isMapped ==> user.bytes == old(user.bytes)
    ensures ret == 0 && !isMapped ==> length > 0
    ensures ret == 0 && !isMapped ==>
      user.bytes == Chunks.Processed(drv.card, true, old(job.keyab), old(user.bytes), length)
    ensures ret == 0 && isMapped ==>
      drv.bar.io.window == Windows.Passes(drv.card, true, old(job.keyab), old(drv.bar.io).window, length)
    ensures readable == (true, true) && drv.card.alive && AllGoWell(worlds) ==>
      (isMapped && old(job.isM)) || (!isMapped && length > 0) ==> ret == 0
  {
    ghost var u, win := user.bytes, drv.bar.io.window;
    var err := job.Ioctl(SetEncrypt(ENCRYPT), readable.0);
    if err != 0 {
      return ERROR, [];
    }
    err := job.Ioctl(SetMmap(if isMapped then MMAP else UNMMAP), readable.1);
    if err != 0 {
      return ERROR, [];
    }
    ghost var r := Request(drv.card, job.Value(), u, win, length, worlds);
    ret, writes := WriteLoop(drv, job, user, length, worlds);
    CallEnds(r, ret, |writes|);
  }

  /** `decrypt`. */
  method Decrypt(drv: CardDriver, job: Handle, user: Buffer, length: nat, isMapped: bool,
                 readable: (bool, bool), worlds: nat -> World)
    returns (ret: int, writes: seq<Write>)
    requires drv.card.Good() && drv.Rested() && job.msg == null && job.keyab < 0x1_0000_0000
    requires forall i :: worlds(i).name < Bar.Power(8)
    requires !isMapped ==> length <= |user.bytes|
    modifies drv, drv.bar, drv.bar.mem, job, user
    ensures job.msg == null
    ensures !(readable.0 && readable.1) ==> ret == ERROR && writes == [] && user.bytes == old(user.bytes)
    ensures readable.0 && readable.1 ==>
      var r := Request(drv.card, Asked(old(job.Value()), false, isMapped), old(user.bytes), old(drv.bar.io).window,
                       length, worlds);
      Tiled(writes, length) && Over(drv, job, user, r, ret, |writes|)
    ensures ret == 0 || ret == -1
    ensures job.isM == old(job.isM) && job.isI == old(job.isI) && job.keyab == old(job.keyab)
    ensures ret == 0 ==> drv.Rested() && !job.isE && job.isNotMM == !isMapped
    ensures isMapped ==> user.bytes == old(user.bytes)
    ensures ret == 0 && !isMapped ==> length > 0
    ensures ret == 0 && !isMapped ==>
      user.bytes == Chunks.Processed(drv.card, false, old(job.keyab), old(user.bytes), length)
    ensures ret == 0 && isMapped ==>
      drv.bar.io.window == Windows.Passes(drv.card, false, old(job.keyab), old(drv.bar.io).window, length)
    ensures readable == (true, true) && drv.card.alive && AllGoWell(worlds) ==>
      (isMapped && old(job.isM)) || (!isMapped && length > 0) ==> ret == 0
  {
    ghost var u, win := user.bytes, drv.bar.io.window;
    var err := job.Ioctl(SetEncrypt(DECRYPT), readable.0);
    if err != 0 {
      return ERROR, [];
    }
    err := job.Ioctl(SetMmap(if isMapped then MMAP else UNMMAP), readable.1);
    if err != 0 {
      return ERROR, [];
    }
    ghost var r := Request(drv.card, job.Value(), u, win, length, worlds);
    ret, writes := WriteLoop(drv, job, user, length, worlds);
    CallEnds(r, ret, |writes|);
  }

  /** `encrypt`, then `decrypt`: if both return 0 the caller's bytes are as they were, under whatever key. */
  method ThereAndBack(drv: CardDriver, job: Handle, user: Buffer, length: nat, worlds: (nat -> World, nat -> World))
    returns (there: int, back: int)
    requires drv.card.Good() && drv.Rested() && job.msg == null && job.keyab < 0x1_0000_0000
    requires forall i :: worlds.0(i).name < Bar.Power(8) && worlds.1(i).name < Bar.Power(8)
    requires length <= |user.bytes|
    modifies drv, drv.bar, drv.bar.mem, job, user
    ensures there == 0 && back == 0 ==> user.bytes == old(user.bytes)
    ensures drv.card.alive && length > 0 && AllGoWell(worlds.0) && AllGoWell(worlds.1) ==>
      there == 0 && back == 0
  {
    back := ERROR;
    Chunks.ProcessedInverse(drv.card, job.keyab, user.bytes, length);
    var writes;
    there, writes := Encrypt(drv, job, user, length, false, (true, true), worlds.0);
    if there == 0 {
      back, writes := Decrypt(drv, job, user, length, false, (true, true), worlds.1);
    }
  }

  /** The same on the window of a mapped caller, for one write or whole chunks. */
  method ThereAndBackMapped(drv: CardDriver, job: Handle, user: Buffer, length: nat,
                            worlds: (nat -> World, nat -> World))
    returns (there: int, back: int)
    requires drv.card.Good() && drv.Rested() && job.msg == null && job.keyab < 0x1_0000_0000
    requires forall i :: worlds.0(i).name < Bar.Power(8) && worlds.1(i).name < Bar.Power(8)
    requires length <= 32768 || length % 32768 == 0
    modifies drv, drv.bar, drv.bar.mem, job, user
    ensures user.bytes == old(user.bytes)
    ensures there == 0 && back == 0 ==> drv.bar.io.window == old(drv.bar.io).window
    ensures drv.card.alive && old(job.isM) && AllGoWell(worlds.0) && AllGoWell(worlds.1) ==>
      there == 0 && back == 0
  {
    back := ERROR;
    Windows.WholeChunksUndone(drv.card, job.keyab, drv.bar.io.window, length);
    var writes;
    there, writes := Encrypt(drv, job, user, length, true, (true, true), worlds.0);
    if there == 0 {
      back, writes := Decrypt(drv, job, user, length, true, (true, true), worlds.1);
    }
  }
}
