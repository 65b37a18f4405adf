/**
 * `pci_write` as a caller without competitors sees it: on the bytes of the BAR, which driver
 * and card read and write register by register, with the card run from inside the driver's own
 * waiting loops. All four transfer modes meet the same specification.
 */
module Driver {
  import opened Types
  import opened Ioctl
  import opened Bar
  import opened Windows

  /** Everything that is decided outside the driver during one write. */
  datatype World = World(
    allocates: bool,          // vmalloc finds memory
    readable: bool,           // copy_from_user succeeds
    downSignal: bool,         // a signal arrives while waiting for the semaphore
    maps: bool,               // dma_map_single succeeds
    name: nat,                // the DMA handle it hands out
    ticks: nat,               // card steps before the operation is done
    signalAt: Option<nat>,    // the test of the wait at which a signal is pending
    copied: Option<nat>)      // copy_to_user stops short after this many bytes

  /** The wait is cut short: a signal is pending at a test the card has not yet satisfied. */
  predicate CutShort(isI: bool, w: World) { isI && w.signalAt.Some? && w.signalAt.value <= w.ticks }

  predicate CopyFails(len: nat, w: World) { w.copied.Some? && w.copied.value < len }

  /** What the operation itself returns, once the card has been obtained and mapped. */
  function Finish(j: Job, len: nat, w: World): int {
    if CutShort(j.isI, w) then ERESTARTSYS
    else if j.isNotMM && CopyFails(len, w) then EAGAIN
    else 0
  }

  /** What it returns once there is a buffer, if one is needed. */
  function Buffered(j: Job, len: nat, w: World): int {
    if j.isNotMM && !w.readable then EAGAIN
    else if w.downSignal then ERESTARTSYS
    else if !j.isM && !w.maps then -1
    else Finish(j, len, w)
  }

  /** The value `pci_write` returns, case by case in the order it decides. */
  function Verdict(j: Job, alive: bool, len: nat, w: World): int {
    if !j.isNotMM && !j.isM then EINVAL
    else if !alive then ENODEV
    else if j.isNotMM && (len == 0 || !w.allocates) then ENOMEM
    else Buffered(j, len, w)
  }

  /** A write that has its buffer gets as far as copying out. */
  predicate Reaches(j: Job, w: World) {
    j.isNotMM && w.readable && !w.downSignal && (j.isM || w.maps) && !CutShort(j.isI, w)
  }

  /** The write got as far as copying out. */
  predicate CopiesOut(j: Job, alive: bool, len: nat, w: World) {
    alive && len > 0 && w.allocates && Reaches(j, w)
  }

  /** The bytes `copy_to_user` delivers. */
  function Delivered(data: seq<Byte>, w: World): seq<Byte> {
    if CopyFails(|data|, w) then Take(data, w.copied.value) else data
  }

  /** The caller's memory with its bytes replaced by their cipher, as far as that was delivered. */
  function Copied(k: Card, j: Job, u: seq<Byte>, ptr: nat, len: nat, w: World): seq<Byte>
    requires ptr + len <= |u|
  {
    Blit(u, ptr, Delivered(k.Cipher(j.isE, j.keyab, u[ptr..ptr + len]), w))
  }

  /** The caller's memory afterwards. The transfer mode plays no part in it. */
  function Outcome(k: Card, j: Job, u: seq<Byte>, ptr: nat, len: nat, w: World): seq<Byte>
    requires ptr + len <= |u|
  {
    if CopiesOut(j, k.alive, len, w) then Copied(k, j, u, ptr, len, w) else u
  }

  predicate Encrypts(word: nat) { word / 2 % 2 == 0 }

  /** The card reads back what was asked: idle or started, and the direction. */
  lemma Words(j: Job)
    ensures StatusWord(j) % 2 == 0 && (StatusWord(j) + 1) % 2 == 1
    ensures Encrypts(StatusWord(j) + 1) == j.isE
    ensures CmdWord(j) % 2 == 1 && (CmdWord(j) - 1) % 2 == 0 && Encrypts(CmdWord(j)) == j.isE
    ensures StatusWord(j) in {0x00, 0x02, 0x80, 0x82} && (StatusWord(j) >= 0x80 <==> j.isI)
    ensures CmdWord(j) in {0x1, 0x3, 0x5, 0x7} && (CmdWord(j) >= 0x4 <==> j.isI)
  {}

  lemma SmallValue(v: nat, r: Reg)
    requires v < 0x1_0000_0000
    ensures v < Power(Width(r))
  {
    Powers();
  }

  /** The card, having worked on the window, clears its busy bit. */
  function Finished(k: Card, io: File): File
    requires io.status > 0
  {
    io.(window := Pass(k, Encrypts(io.status), io.keys, io.window, io.lenMsg), status := io.status - 1)
  }

  /** What the card makes of a buffer of bytes it was pointed at. */
  function DmaResult(k: Card, io: File, s: seq<Byte>): seq<Byte> { Pass(k, Encrypts(io.cmd), io.keys, s, io.dlen) }

  /** A message loaded at the start of the window comes out as its cipher. */
  lemma PassLoaded(k: Card, isE: bool, key: nat, win: seq<Byte>, data: seq<Byte>)
    requires k.Good() && |data| <= |win|
    ensures Take(Pass(k, isE, key, Blit(win, 0, data), |data|), |data|) == k.Cipher(isE, key, data)
  {
    assert Take(Blit(win, 0, data), |data|) == data;
    assert |k.Cipher(isE, key, data)| == |data|;
  }

  lemma PassWhole(k: Card, isE: bool, key: nat, data: seq<Byte>)
    requires k.Good()
    ensures Pass(k, isE, key, data, |data|) == k.Cipher(isE, key, data)
  {
    assert Take(data, |data|) == data && |k.Cipher(isE, key, data)| == |data|;
  }

  /** The bytes of a write that go through the kernel buffer: none for a mapped caller. */
  function Sent(j: Job, u: seq<Byte>, ptr: nat, len: nat): seq<Byte> {
    if j.isNotMM && ptr + len <= |u| then u[ptr..ptr + len] else []
  }

  /** What the window holds when the card is started. */
  function Message(win: seq<Byte>, isNotMM: bool, data: seq<Byte>): seq<Byte> {
    if isNotMM then Blit(win, 0, data) else win
  }

  /** A write that has its buffer is cut short after the card has been started. */
  predicate CutOff(j: Job, w: World) {
    (j.isNotMM ==> w.readable) && !w.downSignal && (j.isM || w.maps) && CutShort(j.isI, w)
  }

  /** The write was cut short after the card had been started. */
  predicate Abandoned(j: Job, alive: bool, len: nat, w: World) {
    alive && (j.isNotMM || j.isM) && (j.isNotMM ==> len > 0 && w.allocates) && CutOff(j, w)
  }

  /** On a live card, what is left to decide once the buffer has been asked for. */
  lemma AdmittedCases(j: Job, len: nat, w: World)
    requires j.isNotMM || j.isM
    ensures var here := j.(len := len);
      if j.isNotMM && (len == 0 || !w.allocates)
      then Verdict(j, true, len, w) == ENOMEM && !CopiesOut(j, true, len, w) && !Abandoned(j, true, len, w)
      else && Verdict(j, true, len, w) == Buffered(here, len, w)
           && (j.isNotMM ==> CopiesOut(j, true, len, w) == Reaches(here, w))
           && Abandoned(j, true, len, w) == CutOff(here, w)
  {}

  // ----- the return value and the memory, in the terms of the call -----

  /** A write returns 0 exactly if nothing fails; nothing else decides it. */
  lemma ZeroExactly(j: Job, alive: bool, len: nat, w: World)
    ensures j.isNotMM ==> (Verdict(j, alive, len, w) == 0 <==>
      && alive && len > 0 && w.allocates && w.readable && !w.downSignal && (j.isM || w.maps)
      && (j.isI ==> w.signalAt.None? || w.signalAt.value > w.ticks)
      && (w.copied.None? || w.copied.value >= len))
    ensures !j.isNotMM ==> (Verdict(j, alive, len, w) == 0 <==>
      && alive && j.isM && !w.downSignal && (j.isI ==> w.signalAt.None? || w.signalAt.value > w.ticks))
  {}

  /** And each error exactly if its statement is the first to fail. */
  lemma ErrorsExactly(j: Job, alive: bool, len: nat, w: World)
    ensures Verdict(j, alive, len, w) == -22 <==> !j.isNotMM && !j.isM
    ensures Verdict(j, alive, len, w) == -19 <==> (j.isNotMM || j.isM) && !alive
    ensures Verdict(j, alive, len, w) == -12 <==> alive && j.isNotMM && (len == 0 || !w.allocates)
    ensures Verdict(j, alive, len, w) == -1 <==>
      alive && j.isNotMM && len > 0 && w.allocates && w.readable && !w.downSignal && !j.isM && !w.maps
    ensures Verdict(j, alive, len, w) == -512 <==>
      && alive && (j.isNotMM || j.isM) && (j.isNotMM ==> len > 0 && w.allocates && w.readable)
      && (w.downSignal || ((j.isM || w.maps) && j.isI && w.signalAt.Some? && w.signalAt.value <= w.ticks))
    ensures Verdict(j, alive, len, w) == -11 <==>
      && alive && j.isNotMM && len > 0 && w.allocates
      && (!w.readable
          || (!w.downSignal && (j.isM || w.maps) && !(j.isI && w.signalAt.Some? && w.signalAt.value <= w.ticks)
              && w.copied.Some? && w.copied.value < len))
    ensures Verdict(j, alive, len, w) in {0, -1, -11, -12, -19, -22, -512}
  {}

  /** An unmapped write that returns 0 has replaced its own bytes by their cipher, and no others. */
  lemma WrittenBytes(k: Card, j: Job, u: seq<Byte>, ptr: nat, len: nat, w: World)
    requires k.Good() && ptr + len <= |u| && j.isNotMM
    ensures var c, v := k.Cipher(j.isE, j.keyab, u[ptr..ptr + len]), Verdict(j, k.alive, len, w);
      && |c| == len
      && (v == 0 ==> Outcome(k, j, u, ptr, len, w) == u[..ptr] + c + u[ptr + len..])
      && (v != 0 && v != -11 ==> Outcome(k, j, u, ptr, len, w) == u)
      && (v == -11 && !w.readable ==> Outcome(k, j, u, ptr, len, w) == u)
      && (v == -11 && w.readable ==>
        && w.copied.Some? && w.copied.value < len
        && Outcome(k, j, u, ptr, len, w) == u[..ptr] + c[..w.copied.value] + u[ptr + w.copied.value..])
  {
    var c := k.Cipher(j.isE, j.keyab, u[ptr..ptr + len]);
    assert |c| == len;
    assert Take(c, len) == c;
  }

  /** Passing over the start of the window replaces its first `n` bytes. */
  lemma PassedBytes(k: Card, isE: bool, key: nat, win: seq<Byte>, n: nat)
    requires k.Good() && n <= |win|
    ensures Pass(k, isE, key, win, n) == k.Cipher(isE, key, win[..n]) + win[n..]
  {
    assert Take(win, n) == win[..n] && |k.Cipher(isE, key, win[..n])| == n;
  }

  lemma LowBit(b: Byte)
    ensures b & 1 != 0 <==> b as nat % 2 == 1
  {}

  class CardDriver {
    const card: Card
    const bar: Bytes
    var sem: int
    var work: nat
    var mapping: map<nat, Buffer>

    constructor (card: Card)
      ensures this.card == card && fresh(bar) && fresh(bar.mem) && Rested()
    {
      this.card := card;
      bar := new Bytes();
      sem, work, mapping := 1, 0, map[];
      new;
      Blank(Status);
      Blank(Cmd);
    }

    /** Nobody in the section, the card idle, nothing mapped. */
    ghost predicate Rested()
      reads this, bar, bar.mem
    {
      && bar.Valid() && |bar.io.window| == WINDOW
      && sem == 1 && bar.io.status % 2 == 0 && bar.io.cmd % 2 == 0 && mapping == map[]
    }

    /** `is_not_live`: a live card answers with the complement of what is written. */
    method IsNotLive(value: nat) returns (r: bool)
      requires bar.Valid() && value == 0x0fffffff
      modifies bar, bar.mem
      ensures bar.Valid() && r == !card.alive && bar.io == old(bar.io).(live := bar.io.live)
    {
      Powers();
      bar.Write(Live, value);
      if card.alive { bar.Write(Live, 0xffffffff - value); }
      var live := bar.Read(Live);
      return live % 0x10000000 != 0;
    }

    /** The card replaces the message and clears its busy bit. */
    method FinishMmio()
      requires bar.Valid() && bar.io.status % 2 == 1
      modifies bar, bar.mem
      ensures bar.Valid() && bar.io == Finished(card, old(bar.io))
    {
      var status := bar.Read(Status);
      var keys := bar.Read(Keys);
      var len := bar.Read(LenMsg);
      var win := bar.Fetch(WINDOW);
      assert win == bar.io.window;
      var data := card.Cipher(Encrypts(status), keys, Take(win, len));
      if |data| <= WINDOW {
        bar.Load(data);
      }
      bar.Write(Status, status - 1);
    }

    /** One step of the card while it works on the window. */
    method TickMmio()
      requires bar.Valid() && bar.io.status % 2 == 1
      modifies bar, bar.mem, this`work
      ensures bar.Valid() && work == if old(work) > 0 then old(work) - 1 else 0
      ensures bar.io == if old(work) > 0 then old(bar.io) else Finished(card, old(bar.io))
    {
      if work > 0 {
        work := work - 1;
      } else {
        FinishMmio();
      }
    }

    /** The card replaces the buffer and clears its start bit. */
    method FinishDma(ghost b: Buffer)
      requires bar.Valid() && bar.io.cmd % 2 == 1 && bar.io.addrOp in mapping && mapping[bar.io.addrOp] == b
      modifies bar, bar.mem, b
      ensures bar.Valid() && bar.io == old(bar.io).(cmd := old(bar.io).cmd - 1)
      ensures b.bytes == DmaResult(card, old(bar.io), old(b.bytes))
    {
      var cmd := bar.Read(Cmd);
      var keys := bar.Read(Keys);
      var len := bar.Read(DLen);
      var name := bar.Read(AddrOp);
      var target := mapping[name];
      target.bytes := Pass(card, Encrypts(cmd), keys, target.bytes, len);
      bar.Write(Cmd, cmd - 1);
    }

    /** One step of the card while it works on a buffer in memory, found by its DMA name. */
    method TickDma(ghost b: Buffer)
      requires bar.Valid() && bar.io.cmd % 2 == 1 && bar.io.addrOp in mapping && mapping[bar.io.addrOp] == b
      modifies bar, bar.mem, this`work, b
      ensures bar.Valid() && work == if old(work) > 0 then old(work) - 1 else 0
      ensures old(work) > 0 ==> bar.io == old(bar.io) && b.bytes == old(b.bytes)
      ensures old(work) == 0 ==> bar.io == old(bar.io).(cmd := old(bar.io).cmd - 1)
      ensures old(work) == 0 ==> b.bytes == DmaResult(card, old(bar.io), old(b.bytes))
    {
      if work > 0 {
        work := work - 1;
      } else {
        FinishDma(b);
      }
    }

    /** `ioread8(status) & 0x01`. */
    method Busy() returns (busy: bool)
      requires bar.Valid()
      ensures busy == (bar.io.status % 2 == 1)
    {
      var b := bar.Read8(Status);
      LowBit(b);
      return b & 1 != 0;
    }

    /** `readq(cmd) & 0x1`. */
    method Started() returns (started: bool)
      requires bar.Valid()
      ensures started == (bar.io.cmd % 2 == 1)
    {
      var cmd := bar.Read(Cmd);
      return cmd % 2 == 1;
    }

    /** Poll or wait for the window operation to finish. */
    method AwaitMmio(isI: bool, w: World) returns (cut: bool)
      requires bar.Valid() && bar.io.status % 2 == 1 && work == w.ticks
      modifies bar, bar.mem, this`work
      ensures bar.Valid() && cut == CutShort(isI, w)
      ensures bar.io == if cut then old(bar.io) else Finished(card, old(bar.io))
    {
      var tests := 0;
      var busy := Busy();
      while busy
        invariant bar.Valid() && busy == (bar.io.status % 2 == 1)
        invariant if busy then tests + work == w.ticks && bar.io == old(bar.io)
                  else tests == w.ticks + 1 && work == 0 && bar.io == Finished(card, old(bar.io))
        invariant isI && w.signalAt.Some? ==> w.signalAt.value >= tests
        decreases busy, work
      {
        if isI && w.signalAt == Some(tests) {
          return true;
        }
        TickMmio();
        tests := tests + 1;
        busy := Busy();
      }
      return false;
    }

    method AwaitDma(isI: bool, w: World, ghost b: Buffer) returns (cut: bool)
      requires bar.Valid() && bar.io.cmd % 2 == 1 && work == w.ticks
      requires bar.io.addrOp in mapping && mapping[bar.io.addrOp] == b
      modifies bar, bar.mem, this`work, b
      ensures bar.Valid() && cut == CutShort(isI, w)
      ensures cut ==> bar.io == old(bar.io)
      ensures !cut ==> bar.io == old(bar.io).(cmd := old(bar.io).cmd - 1)
      ensures !cut ==> b.bytes == DmaResult(card, old(bar.io), old(b.bytes))
    {
      var tests := 0;
      var started := Started();
      while started
        invariant bar.Valid() && started == (bar.io.cmd % 2 == 1)
        invariant started ==> tests + work == w.ticks && bar.io == old(bar.io) && b.bytes == old(b.bytes)
        invariant !started ==> tests == w.ticks + 1 && work == 0 && bar.io == old(bar.io).(cmd := old(bar.io).cmd - 1)
        invariant !started ==> b.bytes == DmaResult(card, old(bar.io), old(b.bytes))
        invariant isI && w.signalAt.Some? ==> w.signalAt.value >= tests
        decreases started, work
      {
        if isI && w.signalAt == Some(tests) {
          return true;
        }
        TickDma(b);
        tests := tests + 1;
        started := Started();
      }
      return false;
    }

    /** The word that asks for a direction and, perhaps, an interrupt. */
    method WriteStatus(job: Handle)
      requires bar.Valid()
      modifies bar, bar.mem
      ensures bar.Valid() && bar.io == old(bar.io).(status := StatusWord(job.Value()))
    {
      Powers();
      if job.isI {
        if job.isE {
          bar.Write(Status, 0x80 + 0x00);
        } else {
          bar.Write(Status, 0x80 + 0x02);
        }
      } else {
        if job.isE {
          bar.Write(Status, 0x00 + 0x00);
        } else {
          bar.Write(Status, 0x00 + 0x02);
        }
      }
    }

    method WriteCmd(job: Handle)
      requires bar.Valid()
      modifies bar, bar.mem
      ensures bar.Valid() && bar.io == old(bar.io).(cmd := CmdWord(job.Value()))
    {
      Powers();
      if job.isI {
        if job.isE {
          bar.Write(Cmd, 0x4 + 0x0 + 0x1);
        } else {
          bar.Write(Cmd, 0x4 + 0x2 + 0x1);
        }
      } else {
        if job.isE {
          bar.Write(Cmd, 0x0 + 0x0 + 0x1);
        } else {
          bar.Write(Cmd, 0x0 + 0x2 + 0x1);
        }
      }
    }

    /** Length, message and status word, and the write that starts the card. */
    method StartMmio(job: Handle, w: World)
      requires bar.Valid() && job.len <= CHUNK && bar.io.keys == job.keyab && |bar.io.window| == WINDOW
      requires job.isNotMM ==> job.msg != null && |job.msg.bytes| == job.len
      modifies bar, bar.mem, this`work
      ensures bar.Valid() && work == w.ticks && bar.io.cmd == old(bar.io).cmd
      ensures bar.io.status == StatusWord(job.Value()) + 1 && bar.io.lenMsg == job.len && bar.io.keys == job.keyab
      ensures bar.io.window
        == Message(old(bar.io).window, job.isNotMM, if job.isNotMM then job.msg.bytes else [])
    {
      SmallValue(job.len, LenMsg);
      SmallValue(R1, DataAddr);
      SmallValue(StatusWord(job.Value()) + 1, Status);
      MessageFits(job.len);
      bar.Write(LenMsg, job.len);
      if job.isNotMM {
        bar.Load(job.msg.bytes);
      }
      WriteStatus(job);
      bar.Write(DataAddr, R1);
      var status := bar.Read(Status);
      bar.Write(Status, status + 1); // the card sets its busy bit
      work := w.ticks;
    }

    /** The memory-mapped branch between the key and the copy-out. */
    method Mmio(job: Handle, w: World) returns (cut: bool)
      requires bar.Valid() && job.len <= CHUNK && bar.io.keys == job.keyab && |bar.io.window| == WINDOW
      requires job.isNotMM ==> job.msg != null && |job.msg.bytes| == job.len
      modifies bar, bar.mem, this`work
      ensures bar.Valid() && |bar.io.window| == WINDOW && bar.io.cmd == old(bar.io).cmd
      ensures cut == CutShort(job.isI, w) && (bar.io.status % 2 == 1 <==> cut)
      ensures var message := Message(old(bar.io).window, job.isNotMM, if job.isNotMM then job.msg.bytes else []);
        if cut then bar.io.window == message
          && Finished(card, bar.io).window == Pass(card, job.isE, job.keyab, message, job.len)
        else bar.io.window == Pass(card, job.isE, job.keyab, message, job.len)
    {
      Words(job.Value());
      StartMmio(job, w);
      cut := AwaitMmio(job.isI, w);
    }

    /** Address, length, and the command that starts the card. */
    method StartDma(job: Handle, w: World)
      requires bar.Valid() && job.len <= CHUNK && w.name < Power(8)
      modifies bar, bar.mem, this`work
      ensures bar.Valid() && work == w.ticks
      ensures bar.io == old(bar.io).(addrOp := w.name, dlen := job.len, cmd := CmdWord(job.Value()))
    {
      SmallValue(job.len, DLen);
      bar.Write(AddrOp, w.name);
      bar.Write(DLen, job.len);
      WriteCmd(job);
      work := w.ticks;
    }

    /** The DMA branch between the mapping and the unmapping. */
    method Dma(job: Handle, w: World) returns (cut: bool)
      requires bar.Valid() && job.msg != null && job.len <= CHUNK && bar.io.keys == job.keyab
      requires w.name in mapping && mapping[w.name] == job.msg && w.name < Power(8)
      modifies bar, bar.mem, this`work, job.msg
      ensures bar.Valid() && bar.io.status == old(bar.io).status && bar.io.window == old(bar.io).window
      ensures cut == CutShort(job.isI, w) && (bar.io.cmd % 2 == 1 <==> cut)
      ensures !cut ==> job.msg.bytes == Pass(card, job.isE, job.keyab, old(job.msg.bytes), job.len)
    {
      Words(job.Value());
      StartDma(job, w);
      cut := AwaitDma(job.isI, w, job.msg);
    }

    /** `copy_to_user`. */
    method CopyToUser(user: Buffer, ptr: nat, data: seq<Byte>, w: World) returns (failed: bool)
      requires ptr + |data| <= |user.bytes|
      modifies user
      ensures failed == CopyFails(|data|, w) && user.bytes == Blit(old(user.bytes), ptr, Delivered(data, w))
    {
      failed := w.copied.Some? && w.copied.value < |data|;
      user.bytes := Blit(user.bytes, ptr, if failed then data[..w.copied.value] else data);
    }

    /** Holding the card: the memory-mapped branch. */
    method MmioBranch(job: Handle, user: Buffer, ptr: nat, w: World) returns (err: int)
      requires bar.Valid() && card.Good() && job.len <= CHUNK && bar.io.keys == job.keyab && |bar.io.window| == WINDOW
      requires job.isNotMM ==> job.msg != null && job.msg != user && |job.msg.bytes| == job.len
      requires job.isNotMM ==> ptr + job.len <= |user.bytes|
      modifies bar, bar.mem, this`work, user, job.msg
      ensures bar.Valid() && |bar.io.window| == WINDOW && bar.io.cmd == old(bar.io).cmd
      ensures err == Finish(job.Value(), job.len, w) && (bar.io.status % 2 == 1 <==> CutShort(job.isI, w))
      ensures user.bytes == if job.isNotMM && !CutShort(job.isI, w)
        then Blit(old(user.bytes), ptr, Delivered(card.Cipher(job.isE, job.keyab, old(job.msg.bytes)), w))
        else old(user.bytes)
      ensures var message := Message(old(bar.io).window, job.isNotMM, if job.isNotMM then old(job.msg.bytes) else []);
        if CutShort(job.isI, w) then bar.io.window == message
          && Finished(card, bar.io).window == Pass(card, job.isE, job.keyab, message, job.len)
        else bar.io.window == Pass(card, job.isE, job.keyab, message, job.len)
    {
      var cut := Mmio(job, w);
      if cut {
        return ERESTARTSYS;
      }
      if job.isNotMM {
        PassLoaded(card, job.isE, job.keyab, old(bar.io).window, job.msg.bytes);
        MessageFits(job.len);
        job.msg.bytes := bar.Fetch(job.len);
        var failed := CopyToUser(user, ptr, job.msg.bytes, w);
        if failed {
          return EAGAIN;
        }
      }
      return 0;
    }

    /** Holding the card: the DMA branch. */
    method DmaBranch(job: Handle, user: Buffer, ptr: nat, w: World) returns (err: int)
      requires bar.Valid() && card.Good() && job.len <= CHUNK && bar.io.keys == job.keyab
      requires mapping == map[] && w.name < Power(8)
      requires job.isNotMM && job.msg != null && job.msg != user && |job.msg.bytes| == job.len
      requires ptr + job.len <= |user.bytes|
      modifies bar, bar.mem, this`work, this`mapping, user, job.msg
      ensures bar.Valid() && bar.io.status == old(bar.io).status && bar.io.window == old(bar.io).window
      ensures err == if !w.maps then -1 else Finish(job.Value(), job.len, w)
      ensures !w.maps ==> bar.io == old(bar.io) && mapping == map[]
      ensures w.maps ==> (bar.io.cmd % 2 == 1 <==> CutShort(job.isI, w))
      ensures w.maps ==> mapping == if CutShort(job.isI, w) then map[w.name := job.msg] else map[]
      ensures user.bytes == if w.maps && !CutShort(job.isI, w)
        then Blit(old(user.bytes), ptr, Delivered(card.Cipher(job.isE, job.keyab, old(job.msg.bytes)), w))
        else old(user.bytes)
    {
      if !w.maps {
        return -1;
      }
      mapping := mapping[w.name := job.msg];
      PassWhole(card, job.isE, job.keyab, job.msg.bytes);
      var cut := Dma(job, w);
      if cut {
        return ERESTARTSYS;
      }
      mapping := mapping - {w.name};
      var failed := CopyToUser(user, ptr, job.msg.bytes, w);
      if failed {
        return EAGAIN;
      }
      return 0;
    }

    /**
     * What a write leaves in the card, given the window it found: nothing to do, or, cut short,
     * an operation that will still replace the message, or a buffer that stays mapped.
     */
    ghost predicate Leaves(j: Job, name: nat, win: seq<Byte>, sent: seq<Byte>, len: nat, cut: bool)
      reads this, bar, bar.mem
    {
      var message := Message(win, j.isNotMM, sent);
      && bar.Valid() && sem == 1 && |bar.io.window| == WINDOW && (!cut ==> Rested())
      && (cut && j.isM ==>
        && bar.io.status % 2 == 1 && mapping == map[] && bar.io.window == message
        && Finished(card, bar.io).window == Pass(card, j.isE, j.keyab, message, len))
      && (cut && !j.isM ==> bar.io.cmd % 2 == 1 && mapping.Keys == {name} && bar.io.window == win)
    }

    /** From the semaphore's down to its up. */
    method Section(job: Handle, user: Buffer, ptr: nat, w: World) returns (err: int)
      requires card.Good() && Rested() && job.len <= CHUNK && job.keyab < 0x1_0000_0000 && w.name < Power(8)
      requires job.isNotMM || job.isM
      requires job.isNotMM ==> job.msg != null && job.msg != user && |job.msg.bytes| == job.len
      requires job.isNotMM ==> ptr + job.len <= |user.bytes|
      modifies this, bar, bar.mem, user, job.msg
      ensures err == if !job.isM && !w.maps then -1 else Finish(job.Value(), job.len, w)
      ensures user.bytes == if job.isNotMM && (job.isM || w.maps) && !CutShort(job.isI, w)
        then Blit(old(user.bytes), ptr, Delivered(card.Cipher(job.isE, job.keyab, old(job.msg.bytes)), w))
        else old(user.bytes)
      ensures Leaves(job.Value(), w.name, old(bar.io).window, if job.isNotMM then old(job.msg.bytes) else [], job.len,
                (job.isM || w.maps) && CutShort(job.isI, w))
      ensures !job.isNotMM ==> bar.io.window == if err == 0
        then Pass(card, job.isE, job.keyab, old(bar.io).window, job.len) else old(bar.io).window
    {
      sem := sem - 1;
      SmallValue(job.keyab, Keys);
      bar.Write(Keys, job.keyab);
      if job.isM {
        err := MmioBranch(job, user, ptr, w);
      } else {
        err := DmaBranch(job, user, ptr, w);
      }
      sem := sem + 1;
    }

    /** From the allocation to the free, with the source's `out_free` label. */
    method WithBuffer(job: Handle, user: Buffer, ptr: nat, w: World) returns (err: int)
      requires card.Good() && Rested() && job.msg == null
      requires job.len <= CHUNK && job.keyab < 0x1_0000_0000 && w.name < Power(8)
      requires (job.isNotMM || job.isM) && (job.isNotMM ==> ptr + job.len <= |user.bytes|)
      modifies this, bar, bar.mem, user, job`msg
      ensures err == Buffered(job.Value(), job.len, w) && job.msg == null && job.Value() == old(job.Value())
      ensures user.bytes == if Reaches(job.Value(), w)
        then Copied(card, job.Value(), old(user.bytes), ptr, job.len, w) else old(user.bytes)
      ensures Leaves(job.Value(), w.name, old(bar.io).window, Sent(job.Value(), old(user.bytes), ptr, job.len), job.len,
                CutOff(job.Value(), w))
      ensures !job.isNotMM ==> bar.io.window == if err == 0
        then Pass(card, job.isE, job.keyab, old(bar.io).window, job.len) else old(bar.io).window
    {
      label out_free: {
        if job.isNotMM {
          job.msg := new Buffer(seq(job.len, _ => 0));
          if !w.readable {
            err := EAGAIN;
            break out_free;
          }
          job.msg.bytes := user.bytes[ptr..ptr + job.len];
        }
        if w.downSignal {
          err := ERESTARTSYS;
          break out_free;
        }
        assert (if job.isNotMM then job.msg.bytes else []) == Sent(job.Value(), user.bytes, ptr, job.len);
        err := Section(job, user, ptr, w);
      }
      job.msg := null;
    }

    /** On a live card: the length is noted, and a buffer obtained if one is needed. */
    method Admitted(job: Handle, user: Buffer, ptr: nat, len: nat, w: World) returns (err: int)
      requires card.Good() && card.alive && Rested() && job.msg == null
      requires job.keyab < 0x1_0000_0000 && w.name < Power(8)
      requires len <= CHUNK && (job.isNotMM || job.isM) && (job.isNotMM ==> ptr + len <= |user.bytes|)
      modifies this, bar, bar.mem, job`len, job`msg, user
      ensures err == Verdict(old(job.Value()), true, len, w)
      ensures user.bytes == if job.isNotMM then Outcome(card, old(job.Value()), old(user.bytes), ptr, len, w)
                            else old(user.bytes)
      ensures job.msg == null && job.Value().(len := 0) == old(job.Value()).(len := 0)
      ensures Leaves(job.Value(), w.name, old(bar.io).window, Sent(job.Value(), old(user.bytes), ptr, len), len,
                Abandoned(old(job.Value()), true, len, w))
      ensures !job.isNotMM ==> bar.io.window == if err == 0
        then Pass(card, job.isE, job.keyab, old(bar.io).window, len) else old(bar.io).window
    {
      ghost var j, u, win := job.Value(), user.bytes, bar.io.window;
      AdmittedCases(j, len, w);
      job.len := len;
      if job.isNotMM && (len == 0 || !w.allocates) {
        err := ENOMEM;
      } else {
        err := WithBuffer(job, user, ptr, w);
        assert job.Value() == j.(len := len);
        assert user.bytes == if j.isNotMM then Outcome(card, j, u, ptr, len, w) else u;
      }
    }

    /**
     * `pci_write`. Whatever the transfer mode, the return value is `Verdict`, the caller's
     * memory is `Outcome`, the semaphore is given back and the job names no buffer. Unless the
     * wait was cut short the card is at rest again; a mapped call that fails leaves the window
     * as it was when it returns, and a call cut short leaves the card an operation that
     * will still be carried out.
     */
    method PciWrite(job: Handle, user: Buffer, ptr: nat, len: nat, w: World) returns (err: int)
      requires card.Good() && Rested() && job.msg == null && job.keyab < 0x1_0000_0000 && w.name < Power(8)
      requires len <= CHUNK && (job.isNotMM ==> ptr + len <= |user.bytes|)
      modifies this, bar, bar.mem, job`len, job`msg, user
      ensures err == Verdict(old(job.Value()), card.alive, len, w)
      ensures user.bytes == if job.isNotMM then Outcome(card, old(job.Value()), old(user.bytes), ptr, len, w)
                            else old(user.bytes)
      ensures job.msg == null && job.Value().(len := 0) == old(job.Value()).(len := 0)
      ensures Leaves(job.Value(), w.name, old(bar.io).window, Sent(job.Value(), old(user.bytes), ptr, len), len,
                Abandoned(old(job.Value()), card.alive, len, w))
      ensures !job.isNotMM ==> bar.io.window == if err == 0
        then Pass(card, job.isE, job.keyab, old(bar.io).window, len) else old(bar.io).window
      ensures err == 0 ==> Rested() && if job.isNotMM
        then user.bytes == old(user.bytes)[..ptr] + card.Cipher(job.isE, job.keyab, old(user.bytes)[ptr..ptr + len])
          + old(user.bytes)[ptr + len..]
        else bar.io.window == card.Cipher(job.isE, job.keyab, old(bar.io).window[..len]) + old(bar.io).window[len..]
    {
      if job.isNotMM { WrittenBytes(card, job.Value(), user.bytes, ptr, len, w); }
      PassedBytes(card, job.isE, job.keyab, bar.io.window, len);
      ZeroExactly(job.Value(), card.alive, len, w);
      if !job.isNotMM && !job.isM {
        return EINVAL;
      }
      var dead := IsNotLive(0x0fffffff);
      if dead {
        return ENODEV;
      }
      err := Admitted(job, user, ptr, len, w);
    }
  }
}
