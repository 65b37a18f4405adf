/** `is_prefetch` and `check_prefetch_opcode`: is the faulting instruction a prefetch? */
module Prefetch {
  import opened Types

  /** How the fault was taken, and under which kernel configuration. */
  datatype Mode = Mode(
    x86_64: bool,             // CONFIG_X86_64
    user: bool,               // user_mode(regs)
    user64: bool,             // user_64bit_mode(regs)
    instructionFetch: bool,   // error_code & X86_PF_INSTR
    taskSizeMax: nat)
  {
    /** Where pointer arithmetic wraps. */
    function Wrap(): (w: nat)
      ensures w > 15
    {
      if x86_64 then 0x1_0000_0000_0000_0000 else 0x1_0000_0000
    }
  }

  /** Memory as `probe_kernel_address` finds it: a byte, or a fault. */
  type Memory = nat -> Option<Byte>

  // ----- the instruction grammar -----

  /**
   * Legacy prefixes (Intel Software Developer's Manual, volume 2, section 2.1.1): segment
   * overrides, operand and address size, lock and repeat.
   */
  predicate Legacy(b: Byte) {
    b == 0x26 || b == 0x2E || b == 0x36 || b == 0x3E || b == 0x64 || b == 0x65 || b == 0x66 || b == 0x67
    || b == 0xF0 || b == 0xF2 || b == 0xF3
  }

  /** REX prefixes (section 2.2.1 of the same volume) exist in 64-bit mode only. */
  predicate Rex(m: Mode, b: Byte) { m.x86_64 && (!m.user || m.user64) && 0x40 <= b <= 0x4F }

  predicate Prefix(m: Mode, b: Byte) { Legacy(b) || Rex(m, b) }

  predicate PrefixAt(mem: Memory, m: Mode, at: nat) { mem(at).Some? && Prefix(m, mem(at).value) }

  predicate Prefixes(mem: Memory, m: Mode, ip: nat, n: nat) {
    forall at :: ip <= at < ip + n ==> PrefixAt(mem, m, at)
  }

  /** The two opcode bytes, 0F 0D or 0F 18. */
  predicate Opcode(mem: Memory, at: nat) {
    && mem(at) == Some(0x0F)
    && (mem(at + 1) == Some(0x0D) || mem(at + 1) == Some(0x18))
  }

  /** Readable memory at `ip` holds a prefetch with `n` prefixes. */
  predicate Instruction(mem: Memory, m: Mode, ip: nat, n: nat) { Prefixes(mem, m, ip, n) && Opcode(mem, ip + n) }

  ghost predicate IsPrefetch(mem: Memory, m: Mode, ip: nat) { exists n: nat :: n <= 14 && Instruction(mem, m, ip, n) }

  // ----- the scanner -----

  /** The tests on the halves of a byte single out exactly the prefixes. */
  lemma Halves(m: Mode, b: Byte)
    ensures (b & 0xf0 == 0x20 || b & 0xf0 == 0x30) ==> (Prefix(m, b) <==> b & 0x0f & 7 == 0x6)
    ensures b & 0xf0 == 0x40 ==> (Prefix(m, b) <==> Rex(m, b)) && 0x40 <= b <= 0x4F
    ensures b & 0xf0 == 0x60 ==> (Prefix(m, b) <==> b & 0x0f & 0xC == 0x4)
    ensures b & 0xf0 == 0xF0 ==> (Prefix(m, b) <==> b & 0x0f == 0 || (b & 0x0f) >> 1 == 1)
    ensures Prefix(m, b) ==> var hi := b & 0xf0; hi == 0x20 || hi == 0x30 || hi == 0x40 || hi == 0x60 || hi == 0xF0
    ensures b == 0x0F <==> b & 0xf0 == 0 && b & 0x0f == 0xF
  {}

  /**
   * `check_prefetch_opcode`, called with `instr` already past `opcode`: continue after a prefix,
   * decide after 0F, give up after anything else.
   */
  method CheckPrefetchOpcode(mem: Memory, m: Mode, instr: nat, opcode: Byte, prefetch: bool)
    returns (more: bool, prefetch': bool)
    requires instr > 0 && mem(instr - 1) == Some(opcode)
    ensures more == Prefix(m, opcode)
    ensures opcode == 0x0F && mem(instr).Some? ==> prefetch' == Opcode(mem, instr - 1)
    ensures opcode != 0x0F && opcode & 0xf0 == 0 && mem(instr).Some? ==> !prefetch'
    ensures opcode & 0xf0 != 0 || mem(instr).None? ==> prefetch' == prefetch
  {
    var hi, lo := opcode & 0xf0, opcode & 0x0f;
    Halves(m, opcode);
    if hi == 0x20 || hi == 0x30 {
      return lo & 7 == 0x6, prefetch;
    } else if m.x86_64 && hi == 0x40 {
      return !m.user || m.user64, prefetch;
    } else if hi == 0x60 {
      return lo & 0xC == 0x4, prefetch;
    } else if hi == 0xF0 {
      return lo == 0 || lo >> 1 == 1, prefetch;
    } else if hi == 0x00 {
      if mem(instr).None? {
        return false, prefetch;
      }
      var next := mem(instr).value;
      return false, lo == 0xF && (next == 0x0D || next == 0x18);
    }
    return false, prefetch;
  }

  lemma NoPrefix(mem: Memory, m: Mode, at: nat)
    requires Opcode(mem, at)
    ensures !PrefixAt(mem, m, at)
  {}

  /** The first byte that is no prefix decides: no other split of the bytes can work. */
  lemma Decided(mem: Memory, m: Mode, ip: nat, n: nat)
    requires n <= 14 && Prefixes(mem, m, ip, n) && !PrefixAt(mem, m, ip + n)
    ensures IsPrefetch(mem, m, ip) <==> Opcode(mem, ip + n)
  {
    if Opcode(mem, ip + n) { assert Instruction(mem, m, ip, n); }
    forall k: nat | k <= 14 && Instruction(mem, m, ip, k)
      ensures k == n
    {
      NoPrefix(mem, m, ip + k);
    }
  }

  /** Fifteen prefixes leave no room for an instruction. */
  lemma TooLong(mem: Memory, m: Mode, ip: nat)
    requires Prefixes(mem, m, ip, 15)
    ensures !IsPrefetch(mem, m, ip)
  {
    forall k: nat | k <= 14
      ensures !Instruction(mem, m, ip, k)
    {
      if Opcode(mem, ip + k) { NoPrefix(mem, m, ip + k); }
    }
  }

  /** The bytes of a prefetch: up to fourteen prefixes, 0F, and 0D or 18. */
  predicate PrefetchBytes(m: Mode, bytes: seq<Byte>) {
    && 2 <= |bytes| <= 16 && bytes[|bytes| - 2] == 0x0F && bytes[|bytes| - 1] in {0x0D, 0x18}
    && forall i :: 0 <= i < |bytes| - 2 ==>
      || bytes[i] in {0x26, 0x2E, 0x36, 0x3E, 0x64, 0x65, 0x66, 0x67, 0xF0, 0xF2, 0xF3}
      || (m.x86_64 && (m.user ==> m.user64) && bytes[i] as int / 16 == 4)
  }

  ghost predicate ReadAt(mem: Memory, ip: nat, bytes: seq<Byte>) {
    forall i :: 0 <= i < |bytes| ==> mem(ip + i) == Some(bytes[i])
  }

  /** Exactly the bytes 40 to 4F have a high half of four. */
  lemma HighHalf(b: Byte)
    ensures 0x40 <= b <= 0x4F <==> b as int / 16 == 4
  {}

  lemma PrefixBytes(m: Mode, b: Byte)
    ensures Prefix(m, b) <==>
      || b in {0x26, 0x2E, 0x36, 0x3E, 0x64, 0x65, 0x66, 0x67, 0xF0, 0xF2, 0xF3}
      || (m.x86_64 && (m.user ==> m.user64) && b as int / 16 == 4)
  {
    HighHalf(b);
  }

  /** A prefix at each place, in the two ways of counting. */
  lemma PrefixesBytes(mem: Memory, m: Mode, ip: nat, n: nat, bytes: seq<Byte>)
    requires |bytes| >= n && ReadAt(mem, ip, bytes)
    ensures Prefixes(mem, m, ip, n) <==> forall i :: 0 <= i < n ==> Prefix(m, bytes[i])
  {
    if forall i :: 0 <= i < n ==> Prefix(m, bytes[i]) {
      forall at | ip <= at < ip + n
        ensures PrefixAt(mem, m, at)
      {
        assert mem(ip + (at - ip)) == Some(bytes[at - ip]);
      }
    }
    if Prefixes(mem, m, ip, n) {
      forall i | 0 <= i < n
        ensures Prefix(m, bytes[i])
      {
        assert PrefixAt(mem, m, ip + i) && mem(ip + i) == Some(bytes[i]);
      }
    }
  }

  lemma InstructionBytes(mem: Memory, m: Mode, ip: nat, n: nat, bytes: seq<Byte>)
    requires n <= 14 && |bytes| == n + 2 && ReadAt(mem, ip, bytes)
    ensures Instruction(mem, m, ip, n) <==> PrefetchBytes(m, bytes)
  {
    PrefixesBytes(mem, m, ip, n, bytes);
    forall i | 0 <= i < n { PrefixBytes(m, bytes[i]); }
    assert mem(ip + n) == Some(bytes[n]) && mem(ip + n + 1) == Some(bytes[n + 1]);
  }

  function Bytes(mem: Memory, ip: nat, n: nat): (s: seq<Byte>)
    requires forall i :: ip <= i < ip + n ==> mem(i).Some?
    ensures |s| == n && forall i :: 0 <= i < n ==> mem(ip + i) == Some(s[i])
  {
    seq(n, i requires 0 <= i < n => mem(ip + i).value)
  }

  ghost predicate PrefetchThere(mem: Memory, m: Mode, ip: nat) {
    exists bytes :: PrefetchBytes(m, bytes) && ReadAt(mem, ip, bytes)
  }

  /** A prefetch is at `ip` exactly if the bytes of one can be read from there. */
  lemma PrefetchExactly(mem: Memory, m: Mode, ip: nat)
    ensures IsPrefetch(mem, m, ip) <==> PrefetchThere(mem, m, ip)
  {
    if IsPrefetch(mem, m, ip) {
      var n: nat :| n <= 14 && Instruction(mem, m, ip, n);
      forall at | ip <= at < ip + n + 2
        ensures mem(at).Some?
      {
        assert at < ip + n ==> PrefixAt(mem, m, at);
      }
      var bytes := Bytes(mem, ip, n + 2);
      InstructionBytes(mem, m, ip, n, bytes);
      assert ReadAt(mem, ip, bytes);
    }
    if bytes :| PrefetchBytes(m, bytes) && ReadAt(mem, ip, bytes) {
      InstructionBytes(mem, m, ip, |bytes| - 2, bytes);
    }
  }

  /**
   * `is_prefetch`: true exactly when the fault is not an instruction fetch, a user address is
   * below the limit, the window of 15 bytes does not wrap around, and a prefetch is there.
   */
  method ScanPrefetch(mem: Memory, m: Mode, ip: nat) returns (prefetch: bool)
    requires ip < m.Wrap()
    ensures prefetch <==>
      && !m.instructionFetch && !(m.user && ip >= m.taskSizeMax)
      && ip + 15 < (if m.x86_64 then 0x1_0000_0000_0000_0000 else 0x1_0000_0000)
      && PrefetchThere(mem, m, ip)
  {
    PrefetchExactly(mem, m, ip);
    prefetch := false;
    if m.instructionFetch {
      return false;
    }
    var instr := ip;
    var maxInstr := (ip + 15) % m.Wrap();
    if m.user && instr >= m.taskSizeMax {
      return false;
    }
    ghost var n: nat := 0;
    while instr < maxInstr
      invariant instr == ip + n && (n > 0 ==> instr <= maxInstr) && !prefetch
      invariant Prefixes(mem, m, ip, n)
      decreases maxInstr - instr
    {
      if mem(instr).None? {
        Decided(mem, m, ip, n);
        return false;
      }
      var opcode := mem(instr).value;
      instr := instr + 1;
      var more;
      more, prefetch := CheckPrefetchOpcode(mem, m, instr, opcode, prefetch);
      if !more {
        Decided(mem, m, ip, n);
        return;
      }
      n := n + 1;
    }
    if n == 15 { TooLong(mem, m, ip); }
  }
}
