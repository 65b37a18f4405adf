/**
 * The card's BAR 0 as bytes: the register layout of `setup_configspace`, little-endian
 * register accesses, and the message window. The bytes implement a file of independent
 * registers beside a window: no access to one disturbs another.
 */
module Bar {
  import opened Types

  const SIZE: nat := 0x100000
  const R1: nat := 0xA8

  datatype Reg = Id | Live | Keys | LenMsg | Status | IntStatus | IntRaise | IntAck | DataAddr | AddrOp | DLen | Cmd

  function Offset(r: Reg): nat {
    match r
    case Id => 0x0
    case Live => 0x4
    case Keys => 0x8
    case LenMsg => 0xC
    case Status => 0x20
    case IntStatus => 0x24
    case IntRaise => 0x60
    case IntAck => 0x64
    case DataAddr => 0x80
    case AddrOp => 0x90
    case DLen => 0x98
    case Cmd => 0xA0
  }

  /** Registers accessed with `writeq`/`readq` are eight bytes wide, the others four. */
  function Width(r: Reg): nat {
    if r.DataAddr? || r.AddrOp? || r.DLen? || r.Cmd? then 8 else 4
  }

  function Power(n: nat): (p: nat)
    ensures p > 0
  {
    if n == 0 then 1 else 256 * Power(n - 1)
  }

  /** Doubling an octet, in the two notations. */
  lemma Doubled(b: Byte)
    requires b < 128
    ensures (b << 1) as nat == 2 * (b as nat) && ((b << 1) | 1) as nat == 2 * (b as nat) + 1
  {}

  lemma Half(b: Byte)
    ensures b < 128 <==> b as nat < 128
  {}

  /** The byte with a given value. */
  function Octet(x: nat): (b: Byte)
    requires x < 256
    ensures b as nat == x
  {
    if x == 0 then 0
    else
      var half := Octet(x / 2);
      Half(half);
      Doubled(half);
      if x % 2 == 0 then half << 1 else (half << 1) | 1
  }

  function Encode(n: nat, v: nat): (s: seq<Byte>)
    ensures |s| == n
  {
    if n == 0 then [] else [Octet(v % 256)] + Encode(n - 1, v / 256)
  }

  function Decode(s: seq<Byte>): nat {
    if s == [] then 0 else s[0] as nat + 256 * Decode(s[1..])
  }

  lemma {:induction false} DecodeEncode(n: nat, v: nat)
    requires v < Power(n)
    ensures Decode(Encode(n, v)) == v
  {
    if n > 0 {
      DecodeEncode(n - 1, v / 256);
      assert Encode(n, v)[1..] == Encode(n - 1, v / 256);
    }
  }

  lemma {:induction false} DecodeBound(s: seq<Byte>)
    ensures Decode(s) < Power(|s|)
  {
    if s != [] { DecodeBound(s[1..]); }
  }

  /** `iowrite32`, `writeq`: the register's bytes and no others. */
  function Put(m: seq<Byte>, r: Reg, v: nat): (m': seq<Byte>)
    requires |m| == SIZE
    ensures |m'| == SIZE
  {
    Blit(m, Offset(r), Encode(Width(r), v))
  }

  function Get(m: seq<Byte>, r: Reg): nat
    requires |m| == SIZE
  {
    Decode(m[Offset(r)..Offset(r) + Width(r)])
  }

  function Window(m: seq<Byte>): (w: seq<Byte>)
    requires |m| == SIZE
    ensures |w| == WINDOW
  {
    m[R1..]
  }

  /** `memcpy_toio` to the window. */
  function PutWindow(m: seq<Byte>, data: seq<Byte>): (m': seq<Byte>)
    requires |m| == SIZE
    ensures |m'| == SIZE
  {
    m[..R1] + Blit(m[R1..], 0, data)
  }

  /** No two registers share a byte, and all lie below the window. */
  lemma Disjoint(r: Reg, q: Reg)
    ensures Offset(r) + Width(r) <= R1
    ensures r != q ==> Offset(r) + Width(r) <= Offset(q) || Offset(q) + Width(q) <= Offset(r)
  {}

  /** Where `setup_configspace` puts the registers, byte by byte, and the window. */
  lemma Layout(m: seq<Byte>)
    requires |m| == SIZE
    ensures |m| == 0x100000 && Window(m) == m[0xA8..0x100000]
    ensures Get(m, Id) == Decode(m[0x00..0x04]) && Get(m, Live) == Decode(m[0x04..0x08])
    ensures Get(m, Keys) == Decode(m[0x08..0x0C]) && Get(m, LenMsg) == Decode(m[0x0C..0x10])
    ensures Get(m, Status) == Decode(m[0x20..0x24]) && Get(m, IntStatus) == Decode(m[0x24..0x28])
    ensures Get(m, IntRaise) == Decode(m[0x60..0x64]) && Get(m, IntAck) == Decode(m[0x64..0x68])
    ensures Get(m, DataAddr) == Decode(m[0x80..0x88]) && Get(m, AddrOp) == Decode(m[0x90..0x98])
    ensures Get(m, DLen) == Decode(m[0x98..0xA0]) && Get(m, Cmd) == Decode(m[0xA0..0xA8])
  {}

  /** Lowest byte first. */
  lemma FourBytes(a: Byte, b: Byte, c: Byte, d: Byte)
    ensures Decode([a, b, c, d]) == a as nat + 256 * (b as nat) + 65536 * (c as nat) + 16777216 * (d as nat)
  {
    var s := [a, b, c, d];
    assert s[1..] == [b, c, d] && [b, c, d][1..] == [c, d] && [c, d][1..] == [d] && [d][1..] == [];
    assert Decode([d]) == d as nat && Decode([c, d]) == c as nat + 256 * Decode([d]);
    assert Decode([b, c, d]) == b as nat + 256 * Decode([c, d]) && Decode(s) == a as nat + 256 * Decode([b, c, d]);
  }

  /** A library message always fits the window. */
  lemma MessageFits(len: nat)
    requires len <= CHUNK
    ensures R1 + len <= SIZE
  {}

  lemma BlitApart(m: seq<Byte>, off: nat, data: seq<Byte>, a: nat, b: nat)
    requires a <= b <= |m| && (b <= off || off + |data| <= a)
    ensures Blit(m, off, data)[a..b] == m[a..b]
  {}

  /** Reading back a register after a write to it or to another. */
  lemma GetPut(m: seq<Byte>, r: Reg, v: nat, q: Reg)
    requires |m| == SIZE && v < Power(Width(r))
    ensures Get(Put(m, r, v), q) == if q == r then v else Get(m, q)
  {
    Disjoint(r, q);
    var m' := Put(m, r, v);
    var lo, hi := Offset(r), Offset(r) + Width(r);
    assert m' == m[..lo] + Encode(Width(r), v) + m[hi..];
    if q == r {
      assert m'[lo..hi] == Encode(Width(r), v);
      DecodeEncode(Width(r), v);
    } else {
      BlitApart(m, lo, Encode(Width(r), v), Offset(q), Offset(q) + Width(q));
    }
  }

  /** Register writes leave the window alone. */
  lemma PutKeepsWindow(m: seq<Byte>, r: Reg, v: nat)
    requires |m| == SIZE
    ensures Window(Put(m, r, v)) == Window(m)
  {
    Disjoint(r, r);
  }

  lemma SliceOfPrefix(m: seq<Byte>, n: nat, x: seq<Byte>, a: nat, b: nat)
    requires a <= b <= n <= |m|
    ensures (m[..n] + x)[a..b] == m[a..b]
  {
    var l, r := (m[..n] + x)[a..b], m[a..b];
    assert |l| == |r| && forall i :: 0 <= i < |l| ==> l[i] == m[..n][a + i] == r[i];
  }

  /** A message of any size leaves every register alone. */
  lemma WindowKeepsRegs(m: seq<Byte>, data: seq<Byte>, q: Reg)
    requires |m| == SIZE
    ensures Get(PutWindow(m, data), q) == Get(m, q)
    ensures Window(PutWindow(m, data)) == Blit(Window(m), 0, data)
  {
    Disjoint(q, q);
    var a, b := Offset(q), Offset(q) + Width(q);
    SliceOfPrefix(m, R1, Blit(m[R1..], 0, data), a, b);
  }

  lemma Even(low: nat, high: nat)
    ensures (low + 256 * high) % 2 == low % 2
  {}

  lemma DecodeParity(s: seq<Byte>)
    requires s != []
    ensures Decode(s) % 2 == (s[0] as nat) % 2
  {
    var low, high := s[0] as nat, Decode(s[1..]);
    Even(low, high);
  }

  /** `ioread8(status) & 1` is bit 0 of the 32-bit word. */
  lemma LowByte(m: seq<Byte>, r: Reg)
    requires |m| == SIZE
    ensures (m[Offset(r)] as nat) % 2 == Get(m, r) % 2
  {
    Disjoint(r, r);
    DecodeParity(m[Offset(r)..Offset(r) + Width(r)]);
  }

  lemma Powers()
    ensures Power(4) == 0x1_0000_0000 && Power(8) == 0x1_0000_0000_0000_0000
  {
    assert Power(2) == 65536 && Power(1) == 256;
    assert Power(4) == 65536 * Power(2) && Power(3) == 256 * Power(2);
    assert Power(5) == 256 * Power(4) && Power(6) == 65536 * Power(4);
    assert Power(8) == 65536 * Power(6);
  }

  // ----- the register file the bytes implement -----

  /** The registers a write uses, and the window. */
  datatype File = File(
    live: nat, keys: nat, lenMsg: nat, status: nat, dataAddr: nat, addrOp: nat, dlen: nat, cmd: nat,
    window: seq<Byte>)
  {
    function Set(r: Reg, v: nat): File {
      match r
      case Live => this.(live := v)
      case Keys => this.(keys := v)
      case LenMsg => this.(lenMsg := v)
      case Status => this.(status := v)
      case DataAddr => this.(dataAddr := v)
      case AddrOp => this.(addrOp := v)
      case DLen => this.(dlen := v)
      case Cmd => this.(cmd := v)
      case _ => this
    }

    function At(r: Reg): nat {
      match r
      case Live => live
      case Keys => keys
      case LenMsg => lenMsg
      case Status => status
      case DataAddr => dataAddr
      case AddrOp => addrOp
      case DLen => dlen
      case Cmd => cmd
      case _ => 0
    }

    function Load(data: seq<Byte>): File { this.(window := Blit(window, 0, data)) }
  }

  function Meaning(m: seq<Byte>): File
    requires |m| == SIZE
  {
    File(Get(m, Live), Get(m, Keys), Get(m, LenMsg), Get(m, Status), Get(m, DataAddr), Get(m, AddrOp), Get(m, DLen),
         Get(m, Cmd), Window(m))
  }

  predicate Means(m: seq<Byte>, f: File)
    requires |m| == SIZE
  {
    f == Meaning(m)
  }

  /** The registers `pci_write` uses. */
  predicate Used(r: Reg) { !r.Id? && !r.IntStatus? && !r.IntRaise? && !r.IntAck? }

  lemma MeaningAt(m: seq<Byte>, r: Reg)
    requires |m| == SIZE && Used(r)
    ensures Meaning(m).At(r) == Get(m, r)
  {}

  lemma {:induction false} Zeros(s: seq<Byte>)
    requires forall i :: 0 <= i < |s| ==> s[i] == 0
    ensures Decode(s) == 0
  {
    if s != [] { Zeros(s[1..]); }
  }

  /** Every register of a blank BAR is zero. */
  lemma Blank(r: Reg)
    requires Used(r)
    ensures Meaning(seq(SIZE, _ => 0)).At(r) == 0
  {
    Disjoint(r, r);
    var m: seq<Byte> := seq(SIZE, _ => 0);
    var bytes := m[Offset(r)..Offset(r) + Width(r)];
    forall i | 0 <= i < |bytes|
      ensures bytes[i] == 0
    {
      assert bytes[i] == m[Offset(r) + i];
    }
    MeaningAt(m, r);
    Zeros(bytes);
  }

  lemma Loaded(m': seq<Byte>, m: seq<Byte>, data: seq<Byte>)
    requires |m| == |m'| == SIZE && |data| <= WINDOW && m'[R1..R1 + |data|] == data
    requires forall j :: 0 <= j < SIZE && !(R1 <= j < R1 + |data|) ==> m'[j] == m[j]
    ensures m' == PutWindow(m, data)
  {
    var end := R1 + |data|;
    assert m'[..R1] == m[..R1] && m'[end..] == m[end..];
    assert m' == m'[..R1] + m'[R1..end] + m'[end..];
    assert m[R1..][|data|..] == m[end..];
  }

  /** The next byte to store, and what is left to encode after it. */
  lemma EncodeHead(code: seq<Byte>, i: nat, n: nat, rest: nat)
    requires i < n == |code| && code[i..] == Encode(n - i, rest)
    ensures code[i] == Octet(rest % 256) && code[i + 1..] == Encode(n - (i + 1), rest / 256)
  {
    assert code[i] == code[i..][0] && code[i + 1..] == code[i..][1..];
  }

  lemma PutMeaning(m: seq<Byte>, r: Reg, v: nat)
    requires |m| == SIZE && v < Power(Width(r))
    ensures Meaning(Put(m, r, v)) == Meaning(m).Set(r, v)
  {
    forall q { GetPut(m, r, v, q); }
    PutKeepsWindow(m, r, v);
  }

  lemma LoadMeaning(m: seq<Byte>, data: seq<Byte>)
    requires |m| == SIZE
    ensures Meaning(PutWindow(m, data)) == Meaning(m).Load(data)
  {
    forall q { WindowKeepsRegs(m, data, q); }
  }

  /** The BAR itself: bytes that the driver and the card read and change in place. */
  class Bytes {
    const mem: array<Byte>

    /** What the bytes mean. */
    ghost var io: File

    ghost predicate Valid()
      reads this, mem
    {
      mem.Length == SIZE && forall f :: Means(mem[..], f) ==> f == io
    }

    constructor ()
      ensures Valid() && fresh(mem) && io == Meaning(seq(SIZE, _ => 0))
    {
      mem := new Byte[SIZE](_ => 0);
      new;
      assert mem[..] == seq(SIZE, _ => 0);
      io := Meaning(mem[..]);
    }

    /** `n` bytes from `off` on, lowest first. */
    method Store(off: nat, n: nat, v: nat)
      requires off + n <= mem.Length
      modifies mem
      ensures mem[..] == old(mem[..off]) + Encode(n, v) + old(mem[off + n..])
    {
      var i, rest := 0, v;
      ghost var code := Encode(n, v);
      while i < n
        invariant i <= n && code[i..] == Encode(n - i, rest)
        invariant forall j :: 0 <= j < i ==> mem[off + j] == code[j]
        invariant forall j :: 0 <= j < mem.Length && !(off <= j < off + i) ==> mem[j] == old(mem[j])
      {
        EncodeHead(code, i, n, rest);
        mem[off + i] := Octet(rest % 256);
        i, rest := i + 1, rest / 256;
      }
      assert mem[off..off + n] == code;
      assert mem[..off] == old(mem[..off]) && mem[off + n..] == old(mem[off + n..]);
      assert mem[..] == mem[..off] + mem[off..off + n] + mem[off + n..];
    }

    /** A register's bytes. */
    method StoreAt(r: Reg, v: nat)
      requires mem.Length == SIZE
      modifies mem
      ensures mem[..] == Put(old(mem[..]), r, v)
    {
      Disjoint(r, r);
      Store(Offset(r), Width(r), v);
    }

    /** `iowrite32` and `writeq`. */
    method Write(r: Reg, v: nat)
      requires Valid() && v < Power(Width(r))
      modifies this, mem
      ensures Valid() && io == old(io).Set(r, v)
    {
      assert Means(mem[..], Meaning(mem[..]));
      PutMeaning(mem[..], r, v);
      StoreAt(r, v);
      io := io.Set(r, v);
    }

    /** `n` bytes from `off` on as a word. */
    method Word(off: nat, n: nat) returns (v: nat)
      requires off + n <= mem.Length
      ensures v == Decode(mem[off..off + n])
    {
      var i := n;
      v := 0;
      while i > 0
        invariant 0 <= i <= n && v == Decode(mem[off + i..off + n])
      {
        i := i - 1;
        assert mem[off + i..off + n][1..] == mem[off + i + 1..off + n];
        v := mem[off + i] as nat + 256 * v;
      }
    }

    /** `ioread32` and `readq`. */
    method Read(r: Reg) returns (v: nat)
      requires Valid() && Used(r)
      ensures v == io.At(r) < Power(Width(r))
    {
      Disjoint(r, r);
      v := Word(Offset(r), Width(r));
      ghost var m := mem[..];
      assert m[Offset(r)..Offset(r) + Width(r)] == mem[Offset(r)..Offset(r) + Width(r)];
      assert Means(m, Meaning(m));
      MeaningAt(m, r);
      DecodeBound(m[Offset(r)..Offset(r) + Width(r)]);
    }

    /** `ioread8`: the low byte alone. */
    method Read8(r: Reg) returns (b: Byte)
      requires Valid() && Used(r)
      ensures (b as nat) % 2 == io.At(r) % 2
    {
      Disjoint(r, r);
      b := mem[Offset(r)];
      LowByte(mem[..], r);
      assert Means(mem[..], Meaning(mem[..]));
      MeaningAt(mem[..], r);
    }

    /** A run of bytes into the window. */
    method Copy(data: seq<Byte>)
      requires mem.Length == SIZE && R1 + |data| <= SIZE
      modifies mem
      ensures mem[..] == PutWindow(old(mem[..]), data)
    {
      ghost var m := mem[..];
      var i := 0;
      while i < |data|
        invariant i <= |data|
        invariant forall j :: 0 <= j < i ==> mem[R1 + j] == data[j]
        invariant forall j :: 0 <= j < mem.Length && !(R1 <= j < R1 + i) ==> mem[j] == m[j]
      {
        mem[R1 + i] := data[i];
        i := i + 1;
      }
      assert mem[..][R1..R1 + i] == data;
      Loaded(mem[..], m, data);
    }

    /** `memcpy_toio` to the window. */
    method Load(data: seq<Byte>)
      requires Valid() && R1 + |data| <= SIZE
      modifies this, mem
      ensures Valid() && io == old(io).Load(data)
    {
      assert Means(mem[..], Meaning(mem[..]));
      LoadMeaning(mem[..], data);
      Copy(data);
      io := io.Load(data);
    }

    /** `memcpy_fromio` from the window. */
    method Fetch(n: nat) returns (data: seq<Byte>)
      requires Valid() && R1 + n <= SIZE
      ensures data == Take(io.window, n) && |io.window| == WINDOW
    {
      assert Means(mem[..], Meaning(mem[..]));
      data := [];
      while |data| < n
        invariant |data| <= n && data == mem[R1..R1 + |data|]
      {
        data := data + [mem[R1 + |data|]];
      }
      assert mem[..][R1..][..n] == mem[R1..R1 + n];
    }
  }
}
