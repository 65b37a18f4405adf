/**
 * The settings of a handle over whole runs of the driver: whatever the other clients, the card
 * and the handler do, and whatever goes wrong inside `pci_write`, each is the last word of the
 * handle's own commands, and the operations the card is given are asked for accordingly.
 */
module Settings {
  import opened Types
  import opened Ioctl
  import opened Machine
  import opened Buffers
  import opened Isolation
  import EndToEnd

  // ----- the commands of a client -----

  /** The first two statements of `encrypt` and `decrypt`. */
  function IssuedByLibrary(c: Client, ch: Choice): Option<(Command, bool)> {
    match c.pc
    case Lib(IoEncrypt) => Some((SetEncrypt(if c.l.enc then ENCRYPT else DECRYPT), !ch.Fail?))
    case Lib(IoMmap) => Some((SetMmap(if c.l.mapped then MMAP else UNMMAP), !ch.Fail?))
    case _ => None
  }

  /** `set_key` and `set_config`. */
  function IssuedByUser(u: UserEvent): Option<(Command, bool)> {
    match u
    case SetKey(a, b, readable) => Some((Command.SetKey(a as int * 256 + b as int), readable))
    case SetConfig(kind, value, readable) => Some((Command.SetConfig(ConfigCode(kind, value)), readable))
    case _ => None
  }

  /** The ioctl that client `t` issues at an event, if any, and whether its argument can be read. */
  function Issued(s: State, e: Event, t: nat): Option<(Command, bool)>
    requires WellFormed(s) && t < |s.clients|
  {
    if !EndToEnd.Concerns(e, t) then None
    else
      match e
      case Thread(_, ch) => IssuedByLibrary(s.clients[t], ch)
      case User(_, u) => IssuedByUser(u)
  }

  /** The commands of `t` among the first `m` events of a run. */
  ghost function Commands(tr: seq<State>, ev: seq<Event>, t: nat, m: nat): History
    requires m <= |ev| < |tr|
  {
    if m == 0 then []
    else
      var h, s := Commands(tr, ev, t, m - 1), tr[m - 1];
      if WellFormed(s) && t < |s.clients| && Issued(s, ev[m - 1], t).Some?
      then h + [Issued(s, ev[m - 1], t).value]
      else h
  }

  // ----- one step -----

  predicate SameSettings(j: Job, j': Job) {
    (j'.isE, j'.isM, j'.isI, j'.isNotMM, j'.keyab) == (j.isE, j.isM, j.isI, j.isNotMM, j.keyab)
  }

  /** The record after a client's own event: the ioctl it issued, or its settings as they were. */
  predicate Obeys(j: Job, issued: Option<(Command, bool)>, j': Job) {
    match issued
    case Some(c) => SameSettings(Apply(j, c.0, c.1).0, j')
    case None => SameSettings(j, j')
  }

  lemma LibraryObeys(v: View, pc: LibPC, ch: Choice)
    requires v.c.pc == Lib(pc)
    ensures Obeys(v.j, IssuedByLibrary(v.c, ch), LibraryStep(v, pc, ch).j)
  {}

  lemma EntryObeys(k: Card, v: View, pc: PrePC, ch: Choice)
    ensures SameSettings(v.j, EntryStep(k, v, pc, ch).j)
  {}

  lemma ThreadObeys(k: Card, v: View, ch: Choice)
    ensures Obeys(v.j, IssuedByLibrary(v.c, ch), LocalStep(k, v, ch).j)
  {
    match v.c.pc
    case Idle =>
    case Lib(pc) => LibraryObeys(v, pc, ch);
    case Pre(pc) => EntryObeys(k, v, pc, ch);
    case Mmio(pc) => assert MmioStep(v, pc, ch).j == v.j;
    case Dma(pc) => assert DmaStep(v, pc, ch).j == v.j;
    case Wait(pc) => assert WaitStep(v, pc, ch).j == v.j;
    case Up(_) =>
    case Free(_) =>
  }

  lemma UserObeys(v: View, u: UserEvent)
    ensures Obeys(v.j, IssuedByUser(u), UserStep(v, u).j)
  {}

  lemma StepObeys(k: Card, s: State, e: Event, t: nat)
    requires Enabled(s, e) && Distinct(s) && t < |s.clients|
    ensures var s' := Next(k, s, e);
      WellFormed(s') && t < |s'.clients| && Obeys(Look(s, t).j, Issued(s, e, t), Look(s', t).j)
  {
    EndToEnd.SameHandles(k, s, e);
    if EndToEnd.Concerns(e, t) {
      match e
      case Thread(_, ch) => ThreadObeys(k, Look(s, t), ch);
      case User(_, u) => UserObeys(Look(s, t), u);
    } else {
      EndToEnd.OthersPlace(k, s, e, t);
    }
  }

  lemma ObeysShows(j: Job, issued: Option<(Command, bool)>, j': Job, h: History)
    requires Shows(j, h) && Obeys(j, issued, j')
    ensures Shows(j', if issued.Some? then h + [issued.value] else h)
  {
    if issued.Some? { ShowsMore(j, h, issued.value.0, issued.value.1); }
  }

  // ----- whole runs -----

  predicate ShownAt(s: State, t: nat, h: History) {
    WellFormed(s) && t < |s.clients| && Shows(Look(s, t).j, h)
  }

  ghost predicate Shaped(s: State, n: nat) { WellFormed(s) && Distinct(s) && |s.clients| == n }

  lemma ShapedStep(k: Card, s: State, e: Event, n: nat)
    requires Shaped(s, n) && Enabled(s, e)
    ensures Shaped(Next(k, s, e), n)
  {
    EndToEnd.SameHandles(k, s, e);
  }

  lemma {:induction false} AlwaysShaped(k: Card, tr: seq<State>, ev: seq<Event>, m: nat)
    requires FromStart(k, tr, ev) && m <= |ev|
    ensures Shaped(tr[m], |tr[0].clients|)
  {
    if m > 0 {
      AlwaysShaped(k, tr, ev, m - 1);
      ShapedStep(k, tr[m - 1], ev[m - 1], |tr[0].clients|);
    }
  }

  lemma ShownOn(k: Card, tr: seq<State>, ev: seq<Event>, t: nat, m: nat)
    requires FromStart(k, tr, ev) && m < |ev| && t < |tr[0].clients|
    requires ShownAt(tr[m], t, Commands(tr, ev, t, m))
    ensures ShownAt(tr[m + 1], t, Commands(tr, ev, t, m + 1))
  {
    var s, e := tr[m], ev[m];
    AlwaysShaped(k, tr, ev, m);
    assert Enabled(s, e) && tr[m + 1] == Next(k, s, e);
    StepObeys(k, s, e, t);
    ObeysShows(Look(s, t).j, Issued(s, e, t), Look(tr[m + 1], t).j, Commands(tr, ev, t, m));
  }

  /**
   * In every state of every run all five settings of every handle are the last accepted command
   * of their own group among the commands of that handle, or what `pci_open` put there.
   */
  lemma {:induction false} SettingsAreCommands(k: Card, tr: seq<State>, ev: seq<Event>, t: nat, m: nat)
    requires FromStart(k, tr, ev) && m <= |ev| && t < |tr[0].clients|
    ensures ShownAt(tr[m], t, Commands(tr, ev, t, m))
  {
    if m == 0 {
      assert Look(tr[0], t).j == OPENED;
    } else {
      SettingsAreCommands(k, tr, ev, t, m - 1);
      ShownOn(k, tr, ev, t, m - 1);
    }
  }

  /** The key loaded at the start of an operation is the last one the handle's commands set. */
  lemma KeyLoaded(k: Card, tr: seq<State>, ev: seq<Event>, t: nat, m: nat)
    requires FromStart(k, tr, ev) && m < |ev| && ev[m].Thread? && ev[m].t == t
    requires t < |tr[m].clients| && tr[m].clients[t].pc == Mmio(LoadKey)
    ensures tr[m + 1].g.dev.keys == Last(Commands(tr, ev, t, m), Key, 0)
  {
    AlwaysShaped(k, tr, ev, m);
    SettingsAreCommands(k, tr, ev, t, m);
    assert Enabled(tr[m], ev[m]) && tr[m + 1] == Next(k, tr[m], ev[m]);
  }

  /** What the history says an operation must be. */
  predicate AsConfigured(op: Op, h: History, len: nat) {
    && op.isE == (Last(h, Direction, ENCRYPT) == ENCRYPT)
    && op.key == Last(h, Key, 0)
    && op.irq == (Last(h, Interrupts, NOINTERRUPT) == INTERRUPT)
    && op.len == len && !op.done
  }

  lemma StartedAsAsked(k: Card, v: View, ch: Choice)
    requires LocalOk(v) && SecOk(k, v, false) && v.c.pc == Mmio(MStart)
    ensures LocalStep(k, v, ch).g.dev.mmio == Some(Op(v.j.isE, v.j.keyab, v.j.len, v.j.isI, 0, false))
  {}

  lemma CommandedAsAsked(k: Card, v: View, ch: Choice)
    requires LocalOk(v) && SecOk(k, v, false) && v.c.pc == PC.Dma(DCmd)
    ensures LocalStep(k, v, ch).g.dev.dma == Some(Op(v.j.isE, v.j.keyab, v.j.len, v.j.isI, v.c.dma, false))
  {}

  /**
   * In every run the card is given operations of the direction, the key and the
   * interrupt setting that the handle's own commands asked for last, in the mode they asked for.
   */
  lemma OperationAsConfigured(k: Card, tr: seq<State>, ev: seq<Event>, t: nat, m: nat)
    requires k.Good() && FromStart(k, tr, ev) && m < |ev| && ev[m].Thread? && ev[m].t == t
    requires t < |tr[m].clients| && (tr[m].clients[t].pc == Mmio(MStart) || tr[m].clients[t].pc == PC.Dma(DCmd))
    ensures var h, d, len := Commands(tr, ev, t, m), tr[m + 1].g.dev, tr[m].clients[t].l.len;
      if tr[m].clients[t].pc.Mmio?
      then Last(h, Transfer, MMIO) == MMIO && d.mmio.Some? && AsConfigured(d.mmio.value, h, len)
      else Last(h, Transfer, MMIO) != MMIO && d.dma.Some? && AsConfigured(d.dma.value, h, len)
  {
    AlwaysShaped(k, tr, ev, m);
    SettingsAreCommands(k, tr, ev, t, m);
    IsoRun(k, tr, ev, m);
    assert Enabled(tr[m], ev[m]) && tr[m + 1] == Next(k, tr[m], ev[m]);
    var v := Look(tr[m], t);
    assert LocalOk(v) && SecOk(k, v, false);
    if v.c.pc.Mmio? {
      StartedAsAsked(k, v, ev[m].ch);
    } else {
      CommandedAsAsked(k, v, ev[m].ch);
    }
  }

  // ----- the library's configuration calls, with the driver at work in between -----

  predicate Accepts(issued: Option<(Command, bool)>, g: Group) {
    issued.Some? && Touches(issued.value.0, issued.value.1, g)
  }

  /** Client `t` accepts no command of the group at events `i` to `m - 1`. */
  ghost predicate Untouched(tr: seq<State>, ev: seq<Event>, t: nat, g: Group, i: nat, m: nat)
    requires m <= |ev| < |tr|
  {
    forall n :: i <= n < m && WellFormed(tr[n]) && t < |tr[n].clients| ==> !Accepts(Issued(tr[n], ev[n], t), g)
  }

  lemma {:induction false} StillLast(tr: seq<State>, ev: seq<Event>, t: nat, g: Group, default: int, i: nat, m: nat)
    requires i <= m <= |ev| < |tr| && Untouched(tr, ev, t, g, i, m)
    ensures Last(Commands(tr, ev, t, m), g, default) == Last(Commands(tr, ev, t, i), g, default)
    decreases m
  {
    if i < m {
      StillLast(tr, ev, t, g, default, i, m - 1);
      var h, s := Commands(tr, ev, t, m - 1), tr[m - 1];
      if WellFormed(s) && t < |s.clients| && Issued(s, ev[m - 1], t).Some? {
        assert !Accepts(Issued(s, ev[m - 1], t), g);
        assert (h + [Issued(s, ev[m - 1], t).value])[..|h|] == h;
      }
    }
  }

  /** An accepted command counts from the next event on. */
  lemma NowLast(k: Card, tr: seq<State>, ev: seq<Event>, t: nat, g: Group, default: int, i: nat)
    requires FromStart(k, tr, ev) && i < |ev| && t < |tr[0].clients|
    requires WellFormed(tr[i]) && t < |tr[i].clients| && Accepts(Issued(tr[i], ev[i], t), g)
    ensures Last(Commands(tr, ev, t, i + 1), g, default) == Sets(Issued(tr[i], ev[i], t).value.0).value.1
  {
    var h := Commands(tr, ev, t, i);
    assert (h + [Issued(tr[i], ev[i], t).value])[|h|] == Issued(tr[i], ev[i], t).value;
  }

  /** After `set_key(a, b)`, whatever happens until the handle's next key, operations load `a * 256 + b`. */
  lemma SetKeyLasts(k: Card, tr: seq<State>, ev: seq<Event>, t: nat, a: Byte, b: Byte, i: nat, m: nat)
    requires FromStart(k, tr, ev) && i < m < |ev| && t < |tr[0].clients|
    requires ev[i] == User(t, UserEvent.SetKey(a, b, true)) && Untouched(tr, ev, t, Key, i + 1, m)
    requires ev[m].Thread? && ev[m].t == t && t < |tr[m].clients| && tr[m].clients[t].pc == Mmio(LoadKey)
    ensures tr[m + 1].g.dev.keys == a as int * 256 + b as int
  {
    AlwaysShaped(k, tr, ev, i);
    KeyLoaded(k, tr, ev, t, m);
    NowLast(k, tr, ev, t, Key, 0, i);
    StillLast(tr, ev, t, Key, 0, i + 1, m);
  }

  /** After `set_config(kind, on)` the handle is so configured until its next command for that setting. */
  lemma SetConfigLasts(k: Card, tr: seq<State>, ev: seq<Event>, t: nat, kind: Kind, on: bool, i: nat, m: nat)
    requires FromStart(k, tr, ev) && i < m <= |ev| && t < |tr[0].clients|
    requires ev[i] == User(t, UserEvent.SetConfig(kind, if on then 1 else 0, true))
    requires Untouched(tr, ev, t, if kind.Dma? then Transfer else Interrupts, i + 1, m)
    ensures WellFormed(tr[m]) && t < |tr[m].clients|
    ensures if kind.Dma? then Look(tr[m], t).j.isM == !on else Look(tr[m], t).j.isI == on
  {
    var g, default := if kind.Dma? then Transfer else Interrupts, if kind.Dma? then MMIO else NOINTERRUPT;
    AlwaysShaped(k, tr, ev, i);
    SettingsAreCommands(k, tr, ev, t, m);
    NowLast(k, tr, ev, t, g, default, i);
    StillLast(tr, ev, t, g, default, i + 1, m);
  }
}
