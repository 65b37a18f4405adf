/** `pci_open`, `pci_unlocked_ioctl` and the two library calls that only configure. */
module Ioctl {
  import opened Types

  const INTERRUPT := 10
  const NOINTERRUPT := 20
  const MMIO := 30
  const DMA := 40
  const ENCRYPT := 50
  const DECRYPT := 60
  const MMAP := 70
  const UNMMAP := 80

  const SET := 1
  const UNSET := 0

  /** The second argument of `set_config`. */
  datatype Kind = Interrupt | Dma

  datatype Command = SetKey(key: nat) | SetConfig(v: int) | SetEncrypt(v: int) | SetMmap(v: int) | Unknown

  /** The handle after one ioctl and its return value; an unreadable argument changes nothing. */
  function Apply(j: Job, c: Command, readable: bool): (Job, int) {
    if c.Unknown? then (j, EINVAL)
    else if !readable then (j, EAGAIN)
    else
      match c
      case SetKey(key) => (j.(keyab := key), 0)
      case SetConfig(v) =>
        if v == DMA then (j.(isM := false), 0)
        else if v == MMIO then (j.(isM := true), 0)
        else if v == INTERRUPT then (j.(isI := true), 0)
        else if v == NOINTERRUPT then (j.(isI := false), 0)
        else (j, EINVAL)
      case SetEncrypt(v) =>
        if v == ENCRYPT then (j.(isE := true), 0)
        else if v == DECRYPT then (j.(isE := false), 0)
        else (j, EINVAL)
      case SetMmap(v) =>
        if v == MMAP then (j.(isNotMM := false), 0)
        else if v == UNMMAP then (j.(isNotMM := true), 0)
        else (j, EINVAL)
  }

  /** `set_key`: the first component in bits 8 to 15, the second in bits 0 to 7. */
  function SetKeyCall(j: Job, a: Byte, b: Byte, readable: bool): (Job, int) {
    var (j', r) := Apply(j, SetKey(a as int * 256 + b as int), readable);
    (j', if r != 0 then -1 else 0)
  }

  /** The ioctl argument `set_config` sends; anything unrecognised becomes NOINTERRUPT. */
  function ConfigCode(kind: Kind, value: Byte): int {
    if kind == Dma && value as int == SET then DMA
    else if kind == Dma && value as int == UNSET then MMIO
    else if kind == Interrupt && value as int == SET then INTERRUPT
    else NOINTERRUPT
  }

  function SetConfigCall(j: Job, kind: Kind, value: Byte, readable: bool): (Job, int) {
    var (j', r) := Apply(j, SetConfig(ConfigCode(kind, value)), readable);
    (j', if r != 0 then -1 else 0)
  }

  // ----- the record in memory -----

  /** A stretch of kernel or user memory. */
  class Buffer {
    var bytes: seq<Byte>

    constructor (bytes: seq<Byte>)
      ensures this.bytes == bytes
    {
      this.bytes := bytes;
    }
  }

  /** `struct job`, updated in place by the ioctls and by `pci_write`. */
  class Handle {
    var isE: bool
    var isM: bool
    var isI: bool
    var isNotMM: bool
    var len: nat
    var msg: Buffer?
    var keyab: nat

    /** The record's settings; the buffer is left to `msg`. */
    function Value(): Job
      reads this
    {
      Job(isE, isM, isI, isNotMM, len, None, keyab)
    }

    /** `pci_open`. */
    constructor Open()
      ensures Value() == OPENED && msg == null
    {
      isNotMM, len, msg := false, 0, null; // kzalloc
      isE := true;
      isM := true;
      isI := false;
      keyab := 0;
    }

    /** `pci_unlocked_ioctl`. */
    method Ioctl(c: Command, readable: bool) returns (r: int)
      modifies this
      ensures (Value(), r) == Apply(old(Value()), c, readable) && msg == old(msg)
    {
      match c {
        case SetKey(key) =>
          if !readable { return EAGAIN; }
          keyab := key;
        case SetConfig(v) =>
          if !readable { return EAGAIN; }
          if v == DMA {
            isM := false;
          } else if v == MMIO {
            isM := true;
          } else if v == INTERRUPT {
            isI := true;
          } else if v == NOINTERRUPT {
            isI := false;
          } else {
            return EINVAL;
          }
        case SetEncrypt(v) =>
          if !readable { return EAGAIN; }
          if v == ENCRYPT {
            isE := true;
          } else if v == DECRYPT {
            isE := false;
          } else {
            return EINVAL;
          }
        case SetMmap(v) =>
          if !readable { return EAGAIN; }
          if v == MMAP {
            isNotMM := false;
          } else if v == UNMMAP {
            isNotMM := true;
          } else {
            return EINVAL;
          }
        case Unknown => return EINVAL;
      }
      return 0;
    }
  }

  // ----- configuration is the fold of the command history -----

  /** The settings one ioctl can touch. */
  datatype Group = Direction | Transfer | Interrupts | Mapping | Key

  /** What an accepted command sets, if anything. */
  function Sets(c: Command): Option<(Group, int)> {
    match c
    case SetKey(key) => Some((Key, key))
    case SetConfig(v) =>
      if v == DMA || v == MMIO then Some((Transfer, v))
      else if v == INTERRUPT || v == NOINTERRUPT then Some((Interrupts, v))
      else None
    case SetEncrypt(v) => if v == ENCRYPT || v == DECRYPT then Some((Direction, v)) else None
    case SetMmap(v) => if v == MMAP || v == UNMMAP then Some((Mapping, v)) else None
    case Unknown => None
  }

  /** A command together with whether its argument could be read. */
  type History = seq<(Command, bool)>

  function Replay(j: Job, h: History): Job {
    if h == [] then j else Apply(Replay(j, h[..|h| - 1]), h[|h| - 1].0, h[|h| - 1].1).0
  }

  /** The last value accepted for a group, looking back from the end. */
  function Last(h: History, g: Group, default: int): int {
    if h == [] then default
    else
      var (c, readable) := h[|h| - 1];
      if readable && Sets(c).Some? && Sets(c).value.0 == g then Sets(c).value.1
      else Last(h[..|h| - 1], g, default)
  }

  /** All five settings are the last accepted command of their group, or as `pci_open` left them. */
  predicate Shows(j: Job, h: History) {
    && j.isE == (Last(h, Direction, ENCRYPT) == ENCRYPT)
    && j.isM == (Last(h, Transfer, MMIO) == MMIO)
    && j.isI == (Last(h, Interrupts, NOINTERRUPT) == INTERRUPT)
    && j.isNotMM == (Last(h, Mapping, MMAP) == UNMMAP)
    && j.keyab == Last(h, Key, 0)
  }

  lemma ShowsMore(j: Job, h: History, c: Command, readable: bool)
    requires Shows(j, h)
    ensures Shows(Apply(j, c, readable).0, h + [(c, readable)])
  {
    var more := h + [(c, readable)];
    assert more[|h|] == (c, readable) && more[..|h|] == h;
  }

  lemma ReplayMore(j: Job, h: History, c: Command, readable: bool)
    ensures Replay(j, h + [(c, readable)]) == Apply(Replay(j, h), c, readable).0
  {
    assert (h + [(c, readable)])[..|h|] == h;
  }

  /** An ioctl does not touch the length or the buffer. */
  lemma SettingsOnly(j: Job, c: Command, readable: bool)
    ensures Apply(j, c, readable).0.len == j.len && Apply(j, c, readable).0.msg == j.msg
  {}

  /**
   * After any history every setting is the last accepted command of its own group, or what
   * `pci_open` put there; the other groups and rejected commands play no part.
   */
  lemma {:induction false} Configuration(h: History)
    ensures Shows(Replay(OPENED, h), h)
    ensures Replay(OPENED, h).len == OPENED.len && Replay(OPENED, h).msg == OPENED.msg
  {
    if h != [] {
      var rest, last := h[..|h| - 1], h[|h| - 1];
      Configuration(rest);
      assert h == rest + [(last.0, last.1)];
      ShowsMore(Replay(OPENED, rest), rest, last.0, last.1);
      ReplayMore(OPENED, rest, last.0, last.1);
      SettingsOnly(Replay(OPENED, rest), last.0, last.1);
    }
  }

  /** An ioctl fails exactly when its argument is unreadable or names nothing, and then does nothing. */
  lemma Rejected(j: Job, c: Command, readable: bool)
    ensures var (j', r) := Apply(j, c, readable);
      && (r == 0 <==> readable && Sets(c).Some?)
      && (r == -11 <==> !readable && !c.Unknown?)
      && (r == -22 <==> c.Unknown? || (readable && Sets(c).None?))
      && (r != 0 ==> j' == j)
    ensures Sets(c).None? <==>
      || c.Unknown?
      || (c.SetConfig? && c.v !in {10, 20, 30, 40})
      || (c.SetEncrypt? && c.v !in {50, 60})
      || (c.SetMmap? && c.v !in {70, 80})
  {}

  /** What each accepted command makes of the record. */
  lemma Accepted(j: Job, key: nat)
    ensures Apply(j, SetKey(key), true).0 == j.(keyab := key)
    ensures Apply(j, SetConfig(40), true).0 == j.(isM := false) && Apply(j, SetConfig(30), true).0 == j.(isM := true)
    ensures Apply(j, SetConfig(10), true).0 == j.(isI := true) && Apply(j, SetConfig(20), true).0 == j.(isI := false)
    ensures Apply(j, SetEncrypt(50), true).0 == j.(isE := true) && Apply(j, SetEncrypt(60), true).0 == j.(isE := false)
    ensures Apply(j, SetMmap(80), true).0 == j.(isNotMM := true)
    ensures Apply(j, SetMmap(70), true).0 == j.(isNotMM := false)
  {}

  predicate Touches(c: Command, readable: bool, g: Group) { readable && Sets(c).Some? && Sets(c).value.0 == g }

  /** No accepted command of the group. */
  predicate Spares(h: History, g: Group) { forall i :: 0 <= i < |h| ==> !Touches(h[i].0, h[i].1, g) }

  /** An accepted command decides its group, whatever came before and whatever is asked of other groups later. */
  lemma {:induction false} LastWord(h: History, c: Command, later: History, g: Group, default: int)
    requires Touches(c, true, g) && Spares(later, g)
    ensures Last(h + [(c, true)] + later, g, default) == Sets(c).value.1
  {
    var all := h + [(c, true)] + later;
    if later == [] {
      assert all == h + [(c, true)];
    } else {
      LastWord(h, c, later[..|later| - 1], g, default);
      assert all[..|all| - 1] == h + [(c, true)] + later[..|later| - 1];
    }
  }

  /**
   * The library's two configuration calls: each setting of a handle stays as its last call put
   * it, through failed calls, commands nobody knows and any calls for the other settings.
   */
  lemma LibraryConfiguration(h: History, a: Byte, b: Byte, kind: Kind, on: bool, later: History)
    ensures Spares(later, Key) ==>
      Replay(OPENED, h + [(SetKey(a as int * 256 + b as int), true)] + later).keyab == a as int * 256 + b as int
    ensures var j := Replay(OPENED, h + [(SetConfig(ConfigCode(kind, if on then 1 else 0)), true)] + later);
      && (kind.Dma? && Spares(later, Transfer) ==> j.isM == !on)
      && (kind.Interrupt? && Spares(later, Interrupts) ==> j.isI == on)
  {
    var key, config := SetKey(a as int * 256 + b as int), SetConfig(ConfigCode(kind, if on then 1 else 0));
    Configuration(h + [(key, true)] + later);
    Configuration(h + [(config, true)] + later);
    if Spares(later, Key) { LastWord(h, key, later, Key, 0); }
    if kind.Dma? && Spares(later, Transfer) { LastWord(h, config, later, Transfer, MMIO); }
    if kind.Interrupt? && Spares(later, Interrupts) { LastWord(h, config, later, Interrupts, NOINTERRUPT); }
  }

  /** A `set_config` value other than SET or UNSET is taken as "no interrupts", even for DMA. */
  lemma StrayConfigValue(j: Job, kind: Kind, value: Byte)
    requires value as int != SET && value as int != UNSET
    ensures SetConfigCall(j, kind, value, true) == (j.(isI := false), 0)
  {}
}
