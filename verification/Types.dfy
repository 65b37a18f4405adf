/** Vocabulary shared by the driver, the library and the card. */
module Types {
  type Byte = bv8

  datatype Option<+T> = None | Some(value: T)

  /** BUFFERSIZE: the largest write the library issues. */
  const CHUNK: nat := 32768

  /** Bytes of the message window: offsets 0xA8 up to 0xFFFFF of the BAR. */
  const WINDOW: nat := 0xFFFFF - 0xA8 + 1

  /** Negated errno values returned by the driver. */
  const ENOMEM := -12
  const EAGAIN := -11
  const EINVAL := -22
  const ENODEV := -19
  const ERESTARTSYS := -512

  /** What an open file handle remembers; `msg` names a kernel buffer. */
  datatype Job = Job(
    isE: bool, isM: bool, isI: bool, isNotMM: bool,
    len: nat, msg: Option<int>, keyab: nat)

  /** The record as `pci_open` leaves it: zeroed memory, then four assignments. */
  const OPENED := Job(true, true, false, false, 0, None, 0)

  /** The word written to `status`: 0x80 asks for an interrupt, 0x02 for decryption. */
  function StatusWord(j: Job): nat {
    (if j.isI then 0x80 else 0x00) + (if j.isE then 0x00 else 0x02)
  }

  /** The word written to `cmd`: 0x4 interrupt, 0x2 decryption, 0x1 start. */
  function CmdWord(j: Job): nat {
    (if j.isI then 0x4 else 0x0) + (if j.isE then 0x0 else 0x2) + 0x1
  }

  /** The card's cipher and liveness, which the repository does not contain. */
  datatype Card = Card(
    enc: (nat, seq<Byte>) -> seq<Byte>,
    dec: (nat, seq<Byte>) -> seq<Byte>,
    alive: bool)
  {
    function Cipher(isE: bool, key: nat, s: seq<Byte>): seq<Byte> {
      if isE then enc(key, s) else dec(key, s)
    }

    /** All that is assumed of a cipher: it keeps lengths and decryption undoes encryption. */
    ghost predicate Good() {
      && (forall key, s :: |enc(key, s)| == |s|)
      && (forall key, s :: |dec(key, s)| == |s|)
      && (forall key, s :: dec(key, enc(key, s)) == s)
    }
  }

  function Min(a: nat, b: nat): nat { if a <= b then a else b }

  function Take(s: seq<Byte>, n: nat): seq<Byte> { s[..Min(n, |s|)] }

  /** `dst` with `src` copied over it from `off` on; a copy that does not fit is dropped. */
  function Blit(dst: seq<Byte>, off: nat, src: seq<Byte>): (r: seq<Byte>)
    ensures |r| == |dst|
  {
    if off + |src| <= |dst| then dst[..off] + src + dst[off + |src|..] else dst
  }
}
