/**
 * `__do_page_fault`: who holds `mmap_sem` when, how often the fault is retried, and how it is
 * accounted. What the rest of the kernel decides is gathered in `World`.
 */
module PageFault {
  import opened Types

  /** The bits of the error code. */
  datatype Code = Code(prot: bool, write: bool, user: bool, rsvd: bool, instr: bool, pk: bool)

  /** The flags handed to `handle_mm_fault`; KILLABLE is always set. */
  datatype Flags = Flags(allowRetry: bool, tried: bool, write: bool, instruction: bool, user: bool)

  datatype Vma = Vma(
    start: nat, growsDown: bool, readable: bool, writable: bool, executable: bool,
    permitted: bool) // arch_vma_access_permitted

  datatype Error = Oom | Sigbus | Sigsegv | Hwpoison | Fallback

  /** What `handle_mm_fault` reports. */
  datatype Report = Report(retry: bool, major: bool, error: Option<Error>)

  /** One pass over the address space. */
  datatype Attempt = Attempt(
    vma: Option<Vma>,       // find_vma
    expands: bool,          // expand_stack succeeds
    bounces: bool,          // handle_userfault releases and retakes mmap_sem on the way
    report: Report,
    fatal: bool)            // a fatal signal is pending afterwards

  datatype World = World(
    kmmio: bool, vmalloc: int, spurious: bool, kprobes: bool,
    hook: Option<int>,      // what rsvd_fault_hook returns, if there is one
    smap: bool, disabled: bool, userMode: bool, sp: nat, taskSizeMax: nat, wordSize: nat,
    free: bool,             // down_read_trylock succeeds
    excepted: bool,         // the instruction is in the exception tables
    attempts: (Attempt, Attempt))

  datatype Outcome =
    | Ignored | Vmalloc | Hooked | TableBad
    | NoSemaphore            // bad_area_nosemaphore without ever taking the lock
    | BadArea | AccessError  // through __bad_area, which gives the lock back
    | Killed                 // back to user mode with a fatal signal pending
    | NoContext
    | Failed(error: Error)   // mm_fault_error
    | Counted(major: bool)   // the accounting at the end

  /** Everything that touches `mmap_sem`, and the two calls that need it. */
  datatype Event = TryFailed | Down | Up | CalleeUp | CalleeDown | FindVma | Handle(flags: Flags)

  // ----- reading a log of events -----

  function Delta(e: Event): int {
    if e.Down? || e.CalleeDown? then 1 else if e.Up? || e.CalleeUp? then -1 else 0
  }

  /** How often the lock is held at the end. */
  function Held(log: seq<Event>): int {
    if log == [] then 0 else Held(log[..|log| - 1]) + Delta(log[|log| - 1])
  }

  /** The lock is taken only when free and used, or given back, only when held. */
  predicate Disciplined(log: seq<Event>) {
    log == [] ||
    var (rest, e) := (log[..|log| - 1], log[|log| - 1]);
      Disciplined(rest) && Held(rest) == if e.Down? || e.CalleeDown? || e.TryFailed? then 0 else 1
  }

  /** The flags of the calls of `handle_mm_fault`. */
  function Calls(log: seq<Event>): seq<Flags> {
    if log == [] then []
    else
      var (rest, e) := (log[..|log| - 1], log[|log| - 1]);
      if e.Handle? then Calls(rest) + [e.flags] else Calls(rest)
  }

  // ----- what a fault amounts to -----

  predicate AccessDenied(c: Code, v: Vma) {
    if c.pk || !v.permitted then true
    else if c.write then !v.writable
    else c.prot || !(v.readable || v.executable || v.writable)
  }

  /** The vma does not cover the address and cannot be grown down to it. */
  predicate Unmapped(c: Code, address: nat, w: World, t: Attempt) {
    || t.vma.None?
    || (t.vma.value.start > address
        && (!t.vma.value.growsDown || (c.user && address + 65536 + 32 * w.wordSize < w.sp) || !t.expands))
  }

  function Kernel(c: Code, w: World): Outcome {
    if !c.rsvd && !c.user && !c.prot && w.vmalloc >= 0 then Vmalloc
    else if w.spurious || w.kprobes then Ignored
    else NoSemaphore
  }

  /** Exits before `mmap_sem` is even tried. */
  function Early(c: Code, address: nat, w: World): Option<Outcome> {
    if w.kmmio then Some(Ignored)
    else if address >= w.taskSizeMax then Some(Kernel(c, w))
    else if w.kprobes then Some(Ignored)
    else if c.rsvd then Some(if w.hook == Some(0) then Hooked else TableBad)
    else if w.smap || w.disabled then Some(NoSemaphore)
    else None
  }

  /** The lock is busy and the fault comes from kernel code that has no business here. */
  predicate Stray(c: Code, w: World) { !w.free && !(c.user || w.userMode) && !w.excepted }

  /** The attempt gets as far as `handle_mm_fault`. */
  predicate Mapped(c: Code, address: nat, w: World, t: Attempt) {
    !Unmapped(c, address, w, t) && !AccessDenied(c, t.vma.value)
  }

  /** The area found covers the address, or is a stack that can be grown down to it. */
  predicate Covered(user: bool, address: nat, w: World, t: Attempt) {
    t.vma.Some? &&
    var v := t.vma.value;
    || v.start <= address
    || (v.growsDown && t.expands && (user ==> w.sp <= address + 65536 + 32 * w.wordSize))
  }

  /** The area allows the access: a write if it is writable, a read of an absent page if it is accessible at all. */
  predicate Allowed(c: Code, v: Vma) {
    && !c.pk && v.permitted
    && (c.write ==> v.writable)
    && (!c.write ==> !c.prot && (v.readable || v.executable || v.writable))
  }

  /** An attempt gets as far as `handle_mm_fault` exactly if its area covers the address and allows the access. */
  lemma HandledExactly(c: Code, address: nat, w: World, t: Attempt)
    ensures !Unmapped(c, address, w, t) <==> Covered(c.user, address, w, t)
    ensures Mapped(c, address, w, t) <==> Covered(c.user, address, w, t) && Allowed(c, t.vma.value)
  {}

  /** The attempts that reach `handle_mm_fault`: the second only after a retry that may go on. */
  function MadeOf(c: Code, address: nat, w: World): seq<Attempt> {
    var (a, b) := w.attempts;
    if !Mapped(c, address, w, a) then []
    else if a.report.retry && !a.fatal && Mapped(c, address, w, b) then [a, b]
    else [a]
  }

  /** A fault from user mode counts as a user access throughout. */
  function AsUser(c: Code, w: World): Code { c.(user := c.user || w.userMode) }

  function Made(c: Code, address: nat, w: World): seq<Attempt> {
    if Early(c, address, w).Some? || Stray(c, w) then [] else MadeOf(AsUser(c, w), address, w)
  }

  /** The accounting step is reached: the last attempt neither failed nor asked for a retry. */
  predicate Accounted(made: seq<Attempt>) {
    made != [] && !made[|made| - 1].report.retry && made[|made| - 1].report.error.None?
  }

  predicate Major(made: seq<Attempt>) { exists i :: 0 <= i < |made| && made[i].report.major }

  /** How a fault ends once the lock has been taken. */
  function Late(c: Code, address: nat, w: World, made: seq<Attempt>): Outcome {
    if made == [] || (|made| == 1 && made[0].report.retry && !made[0].fatal) then
      if Unmapped(c, address, w, if made == [] then w.attempts.0 else w.attempts.1) then BadArea else AccessError
    else if made[|made| - 1].report.retry then
      if w.userMode then Killed else NoContext
    else if made[|made| - 1].report.error.Some? then Failed(made[|made| - 1].report.error.value)
    else Counted(Major(made))
  }

  /** The outcome of a fault. */
  function Result(c: Code, address: nat, w: World): Outcome {
    var early := Early(c, address, w);
    if early.Some? then early.value
    else if Stray(c, w) then NoSemaphore
    else Late(AsUser(c, w), address, w, Made(c, address, w))
  }

  /** The accounting of one fault, as (maj_flt, min_flt). */
  function Tally(n: (nat, nat), out: Outcome): (nat, nat) {
    if !out.Counted? then n else if out.major then (n.0 + 1, n.1) else (n.0, n.1 + 1)
  }

  /** At most two calls, the second with ALLOW_RETRY cleared and TRIED set. */
  predicate CallsFit(calls: seq<Flags>, first: Flags, n: int) {
    && |calls| == n <= 2
    && (n > 0 ==> calls[0] == first)
    && (n > 1 ==> calls[1] == first.(allowRetry := false, tried := true))
  }

  // ----- the handler -----

  method Emit(log: seq<Event>, e: Event) returns (log': seq<Event>)
    ensures log' == log + [e] && Held(log') == Held(log) + Delta(e)
    ensures Disciplined(log')
      <==> Disciplined(log) && Held(log) == if e.Down? || e.CalleeDown? || e.TryFailed? then 0 else 1
    ensures Calls(log') == if e.Handle? then Calls(log) + [e.flags] else Calls(log)
  {
    log' := log + [e];
    assert log'[..|log|] == log;
  }

  /** `handle_mm_fault` as its contract has it: on RETRY it has given the lock back. */
  method HandleMmFault(log: seq<Event>, t: Attempt, flags: Flags) returns (report: Report, log': seq<Event>)
    requires Disciplined(log) && Held(log) == 1
    ensures report == t.report && Disciplined(log') && Held(log') == (if t.report.retry then 0 else 1)
    ensures Calls(log') == Calls(log) + [flags] && log + [Handle(flags)] <= log'
  {
    log' := Emit(log, Handle(flags));
    if t.bounces {
      log' := Emit(log', CalleeUp);
      log' := Emit(log', CalleeDown);
    }
    if t.report.retry {
      log' := Emit(log', CalleeUp);
    }
    return t.report, log';
  }

  /** The area found covers the address, or can be grown down to it. */
  method Covers(c: Code, address: nat, w: World, t: Attempt) returns (covers: bool)
    ensures covers <==> !Unmapped(c, address, w, t)
  {
    if t.vma.None? {
      return false;
    }
    var vma := t.vma.value;
    if vma.start > address {
      if !vma.growsDown || (c.user && address + 65536 + 32 * w.wordSize < w.sp) || !t.expands {
        return false;
      }
    }
    return true;
  }

  /** From `find_vma` to `handle_mm_fault`: a bad area gives the lock back, inside `__bad_area`. */
  method TryArea(c: Code, address: nat, w: World, t: Attempt, flags: Flags, log: seq<Event>)
    returns (report: Option<Report>, bad: Outcome, log': seq<Event>)
    requires Disciplined(log) && Held(log) == 1
    ensures Disciplined(log') && Held(log') == if Mapped(c, address, w, t) && !t.report.retry then 1 else 0
    ensures report == if Mapped(c, address, w, t) then Some(t.report) else None
    ensures Calls(log') == if Mapped(c, address, w, t) then Calls(log) + [flags] else Calls(log)
    ensures log + [FindVma] <= log'
    ensures report.None? ==> bad == if Unmapped(c, address, w, t) then BadArea else AccessError
    ensures report.Some? <==> Covered(c.user, address, w, t) && Allowed(c, t.vma.value)
  {
    HandledExactly(c, address, w, t);
    log' := Emit(log, FindVma);
    var covers := Covers(c, address, w, t);
    if !covers {
      log' := Emit(log', Up);
      return None, BadArea, log';
    }
    if AccessDenied(c, t.vma.value) {
      log' := Emit(log', Up);
      return None, AccessError, log';
    }
    var r;
    r, log' := HandleMmFault(log', t, flags);
    return Some(r), BadArea, log';
  }

  lemma MajorSoFar(made: seq<Attempt>, t: Attempt)
    ensures Major(made + [t]) <==> Major(made) || t.report.major
  {
    assert (made + [t])[|made|] == t;
    if Major(made) {
      var i :| 0 <= i < |made| && made[i].report.major;
      assert (made + [t])[i] == made[i];
    }
  }

  /** Before an attempt: the lock is held, and at most one attempt has been made and may be retried. */
  predicate Ready(c: Code, address: nat, w: World, flags0: Flags, flags: Flags, made: seq<Attempt>, log: seq<Event>) {
    && Disciplined(log) && Held(log) == 1 && log != [] && CallsFit(Calls(log), flags0, |made|)
    && flags == flags0.(allowRetry := made == [], tried := made != [])
    && (made != [] ==>
      made == [w.attempts.0] && Mapped(c, address, w, made[0]) && made[0].report.retry && !made[0].fatal)
  }

  /** The attempts made when the last of them, `t`, is not tried again. */
  lemma LastAttempt(c: Code, address: nat, w: World, flags0: Flags, flags: Flags, made: seq<Attempt>,
                    log: seq<Event>, t: Attempt)
    requires Ready(c, address, w, flags0, flags, made, log) && flags0.allowRetry && !flags0.tried
    requires t == if flags.allowRetry then w.attempts.0 else w.attempts.1
    ensures !Mapped(c, address, w, t) ==> MadeOf(c, address, w) == made
    ensures Mapped(c, address, w, t) && !(flags.allowRetry && t.report.retry && !t.fatal) ==>
      MadeOf(c, address, w) == made + [t]
    ensures |made| <= 1 && (flags.allowRetry <==> made == [])
    ensures CallsFit(Calls(log) + [flags], flags0, |made| + 1)
  {}

  /** How the fault ends after the last attempt: with a retry nobody makes, an error, or success. */
  function Settled(w: World, report: Report, major: bool): Outcome {
    if report.retry then (if w.userMode then Killed else NoContext)
    else if report.error.Some? then Failed(report.error.value)
    else Counted(major)
  }

  /** The outcomes of the loop's exits. */
  lemma ExitsLate(c: Code, address: nat, w: World, flags0: Flags, flags: Flags, made: seq<Attempt>,
                  log: seq<Event>, t: Attempt)
    requires Ready(c, address, w, flags0, flags, made, log) && flags0.allowRetry && !flags0.tried
    requires t == if flags.allowRetry then w.attempts.0 else w.attempts.1
    ensures !Mapped(c, address, w, t) ==>
      Late(c, address, w, made) == if Unmapped(c, address, w, t) then BadArea else AccessError
    ensures Mapped(c, address, w, t) && !(flags.allowRetry && t.report.retry && !t.fatal) ==>
      Late(c, address, w, made + [t]) == Settled(w, t.report, Major(made + [t]))
  {
    assert (made + [t])[|made|] == t;
  }

  /** After the last attempt: the lock is free, or given back now. */
  method Settle(w: World, report: Report, user: bool, major: bool, log0: seq<Event>)
    returns (out: Outcome, log: seq<Event>)
    requires Disciplined(log0) && Held(log0) == (if report.retry then 0 else 1) && log0 != [] && user == w.userMode
    ensures Disciplined(log) && Held(log) == 0 && log != [] && Calls(log) == Calls(log0)
    ensures out == Settled(w, report, major)
  {
    log := log0;
    if report.retry {
      if user {
        return Killed, log;
      }
      return NoContext, log;
    }
    log := Emit(log, Up);
    if report.error.Some? {
      return Failed(report.error.value), log;
    }
    return Counted(major), log;
  }

  /** From the first `find_vma` on, with the lock held: at most two attempts. */
  method UnderLock(c: Code, address: nat, w: World, flags0: Flags, log0: seq<Event>, ghost goal: seq<Attempt>)
    returns (out: Outcome, log: seq<Event>)
    requires Disciplined(log0) && Held(log0) == 1 && log0 != [] && Calls(log0) == []
    requires flags0.allowRetry && !flags0.tried && flags0.user == w.userMode && goal == MadeOf(c, address, w)
    ensures Disciplined(log) && Held(log) == 0 && log != [] && CallsFit(Calls(log), flags0, |goal|)
    ensures out == Late(c, address, w, goal)
  {
    log := log0;
    var flags := flags0;
    var major := false;
    ghost var made: seq<Attempt> := [];
    while true
      invariant Ready(c, address, w, flags0, flags, made, log) && major == Major(made) && |made| <= 1
      decreases 1 - |made|
    {
      var t := if flags.allowRetry then w.attempts.0 else w.attempts.1;
      LastAttempt(c, address, w, flags0, flags, made, log, t);
      ExitsLate(c, address, w, flags0, flags, made, log, t);
      MajorSoFar(made, t);
      var got, bad;
      got, bad, log := TryArea(c, address, w, t, flags, log);
      if got.None? {
        return bad, log;
      }
      var report := got.value;
      made := made + [t];
      major := major || report.major;
      if report.retry && flags.allowRetry {
        flags := flags.(allowRetry := false, tried := true);
        if !t.fatal {
          log := Emit(log, Down);
          continue;
        }
      }
      out, log := Settle(w, report, flags.user, major, log);
      return;
    }
  }

  /** The faults that must not touch `mmap_sem`, however they end. */
  predicate LockFree(c: Code, address: nat, w: World) {
    || w.kmmio || w.kprobes || address >= w.taskSizeMax || c.rsvd // kernel space, and the reserved bit
    || w.smap || w.disabled                                       // no business, or no way, to sleep
  }

  /** A fault on a kernel address: no locks, whatever happens. */
  method KernelSpace(code: Code, w: World) returns (out: Outcome)
    ensures out == Vmalloc <==> w.vmalloc >= 0 && !code.rsvd && !code.user && !code.prot
    ensures out == Ignored <==> out != Vmalloc && (w.spurious || w.kprobes)
    ensures out == Vmalloc || out == Ignored || out == NoSemaphore
  {
    if !(code.rsvd || code.user || code.prot) {
      if w.vmalloc >= 0 {
        return Vmalloc;
      }
    }
    if w.spurious {
      return Ignored;
    }
    if w.kprobes {
      return Ignored;
    }
    return NoSemaphore;
  }

  /** Everything up to the lock: it settles exactly the faults that must not touch it. */
  method BeforeLock(code: Code, address: nat, w: World) returns (out: Option<Outcome>)
    ensures out.Some? <==> LockFree(code, address, w)
    ensures out.Some? ==> out.value == Result(code, address, w)
  {
    if w.kmmio {
      return Some(Ignored);
    }
    if address >= w.taskSizeMax {
      var kernel := KernelSpace(code, w);
      return Some(kernel);
    }
    if w.kprobes {
      return Some(Ignored);
    }
    if code.rsvd {
      if w.hook.None? || w.hook.value != 0 {
        return Some(TableBad);
      }
      return Some(Hooked);
    }
    if w.smap {
      return Some(NoSemaphore);
    }
    if w.disabled {
      return Some(NoSemaphore);
    }
    return None;
  }

  /** Take the lock, unless it is busy and waiting for it could deadlock. */
  method TakeLock(code: Code, w: World, log0: seq<Event>) returns (stray: bool, log: seq<Event>)
    requires Disciplined(log0) && Held(log0) == 0 && Calls(log0) == []
    ensures stray == Stray(code, w) && Disciplined(log) && Held(log) == (if stray then 0 else 1)
    ensures log != [] && Calls(log) == []
  {
    log := log0;
    if !w.free {
      log := Emit(log, TryFailed);
      if !(code.user || w.userMode) && !w.excepted {
        return true, log;
      }
    }
    log := Emit(log, Down);
    return false, log;
  }

  /** An address of user space whose fault is not intercepted by kmmio or kprobes. */
  predicate UserSpace(address: nat, w: World) { address < w.taskSizeMax && !w.kmmio && !w.kprobes }

  /**
   * How each ending without a look at the address space comes about, exactly: whatever else is
   * the case, a reserved-bit fault of user space ends in `pgtable_bad` unless there is a hook and it
   * returns 0, and only a kernel access to an unmapped kernel address is looked up in the reference.
   */
  lemma EndsEarly(c: Code, address: nat, w: World)
    ensures Early(c, address, w).Some? <==> LockFree(c, address, w)
    ensures Result(c, address, w) == TableBad <==> UserSpace(address, w) && c.rsvd && w.hook != Some(0)
    ensures Result(c, address, w) == Hooked <==> UserSpace(address, w) && c.rsvd && w.hook == Some(0)
    ensures Result(c, address, w) == Vmalloc
      <==> !w.kmmio && address >= w.taskSizeMax && !c.rsvd && !c.user && !c.prot && w.vmalloc >= 0
    ensures Result(c, address, w) == Ignored
      <==> w.kmmio || (Result(c, address, w) != Vmalloc && (w.kprobes || (address >= w.taskSizeMax && w.spurious)))
    ensures Result(c, address, w) == NoSemaphore
      <==> (!w.kmmio && !w.kprobes
        && if address >= w.taskSizeMax then !w.spurious && Result(c, address, w) != Vmalloc
           else !c.rsvd && (w.smap || w.disabled || Stray(c, w)))
  {}

  // ----- the endings under the lock, by the areas found -----

  /** The lock is taken: the fault is of user space, may sleep, and is no stray access of the kernel. */
  predicate Locks(c: Code, address: nat, w: World) {
    && !w.kmmio && !w.kprobes && address < w.taskSizeMax && !c.rsvd && !w.smap && !w.disabled
    && (w.free || c.user || w.userMode || w.excepted)
  }

  /** The attempt that decides: the second, if the first asked for a retry and nothing fatal has come up. */
  predicate GoesOn(c: Code, address: nat, w: World) {
    var a := w.attempts.0;
    Covered(c.user || w.userMode, address, w, a) && Allowed(c, a.vma.value) && a.report.retry && !a.fatal
  }

  function Deciding(c: Code, address: nat, w: World): Attempt {
    if GoesOn(c, address, w) then w.attempts.1 else w.attempts.0
  }

  lemma EarlyOrStray(c: Code, address: nat, w: World)
    ensures Locks(c, address, w) <==> Early(c, address, w).None? && !Stray(c, w)
    ensures Stray(c, w) <==> !w.free && !c.user && !w.userMode && !w.excepted
  {}

  lemma MajorOf(a: Attempt, b: Attempt)
    ensures Major([a]) <==> a.report.major
    ensures Major([a, b]) <==> a.report.major || b.report.major
  {
    assert [a, b][0] == a && [a, b][1] == b && [a][0] == a;
  }

  /** How a fault ends that takes the lock, by what the deciding attempt found and reported. */
  lemma EndsLate(c: Code, address: nat, w: World)
    requires Locks(c, address, w)
    ensures var t, out := Deciding(c, address, w), Result(c, address, w);
      var covered := Covered(c.user || w.userMode, address, w, t);
      var handled := covered && Allowed(c, t.vma.value);
      && (out == BadArea <==> !covered)
      && (out == AccessError <==> covered && !Allowed(c, t.vma.value))
      && (out == Killed <==> handled && t.report.retry && w.userMode)
      && (out == NoContext <==> handled && t.report.retry && !w.userMode)
      && (out.Failed? <==> handled && !t.report.retry && t.report.error.Some?)
      && (out.Failed? ==> Some(out.error) == t.report.error)
      && (out.Counted? <==> handled && !t.report.retry && t.report.error.None?)
      && (out.Counted? ==>
        (out.major <==> t.report.major || (GoesOn(c, address, w) && w.attempts.0.report.major)))
  {
    EarlyOrStray(c, address, w);
    HandledExactly(AsUser(c, w), address, w, w.attempts.0);
    HandledExactly(AsUser(c, w), address, w, w.attempts.1);
    MajorOf(w.attempts.0, w.attempts.1);
  }

  /** A fault that never takes the lock calls nothing. */
  lemma NotTaken(code: Code, address: nat, w: World)
    ensures Early(code, address, w).Some? ==>
      Made(code, address, w) == [] && Result(code, address, w) == Early(code, address, w).value
    ensures Early(code, address, w).None? && Stray(code, w) ==>
      Made(code, address, w) == [] && Result(code, address, w) == NoSemaphore
  {}

  class Task {
    var majFlt: nat
    var minFlt: nat

    method DoPageFault(code: Code, address: nat, w: World) returns (out: Outcome, log: seq<Event>)
      modifies this
      ensures Disciplined(log) && Held(log) == 0
      ensures CallsFit(Calls(log), Flags(true, false, code.write, code.instr, w.userMode), |Made(code, address, w)|)
      ensures out == Result(code, address, w)
      ensures log == [] <==> LockFree(code, address, w)
      ensures (majFlt, minFlt) == Tally(old((majFlt, minFlt)), out)
      ensures out.Counted? ==> Locks(code, address, w)
      ensures out.Counted? || out.Failed? ==> var t := Deciding(code, address, w);
        && t.vma.Some? && !code.pk && t.vma.value.permitted && (code.write ==> t.vma.value.writable)
        && (!code.write ==> !code.prot && (t.vma.value.readable || t.vma.value.executable || t.vma.value.writable))
      ensures majFlt + minFlt == old(majFlt + minFlt) + (if out.Counted? then 1 else 0)
    {
      EarlyOrStray(code, address, w);
      if Locks(code, address, w) { EndsLate(code, address, w); }
      NotTaken(code, address, w);
      log := [];
      var early := BeforeLock(code, address, w);
      if early.Some? {
        return early.value, log;
      }
      var stray;
      stray, log := TakeLock(code, w, log);
      if stray {
        return NoSemaphore, log;
      }
      var flags := Flags(true, false, code.write, code.instr, w.userMode);
      out, log := UnderLock(AsUser(code, w), address, w, flags, log, Made(code, address, w));
      Account(out);
    }

    method Account(out: Outcome)
      modifies this
      ensures (majFlt, minFlt) == Tally(old((majFlt, minFlt)), out)
    {
      if out.Counted? {
        if out.major {
          majFlt := majFlt + 1;
        } else {
          minFlt := minFlt + 1;
        }
      }
    }
  }

  // ----- accounting over many faults -----

  datatype Fault = Fault(code: Code, address: nat, w: World)
  {
    function Attempts(): seq<Attempt> { Made(code, address, w) }
    function Ending(): Outcome { Result(code, address, w) }
  }

  /** The counters after a sequence of faults, oldest first. */
  function Totals(faults: seq<Fault>, n: (nat, nat)): (nat, nat) {
    if faults == [] then n else Tally(Totals(faults[..|faults| - 1], n), faults[|faults| - 1].Ending())
  }

  /** A fault is accounted for exactly when its last attempt settled it, as major if any attempt was. */
  lemma AccountedExactly(f: Fault)
    ensures f.Ending().Counted? <==> Accounted(f.Attempts())
    ensures f.Ending().Counted? ==> f.Ending().major == Major(f.Attempts())
  {}

  /** The faults that have a property. */
  function Where(faults: seq<Fault>, p: Fault -> bool): seq<Fault> {
    if faults == [] then []
    else
      var rest := Where(faults[..|faults| - 1], p);
      if p(faults[|faults| - 1]) then rest + [faults[|faults| - 1]] else rest
  }

  /**
   * Over any sequence of faults the counters together grow by the number of faults accounted
   * for, and `maj_flt` by the number of those some attempt of which, even one that was retried,
   * reported a major fault.
   */
  lemma {:induction false} AccountingAddsUp(faults: seq<Fault>, n: (nat, nat))
    ensures Totals(faults, n).0 == n.0 + |Where(faults, (f: Fault) => Accounted(f.Attempts()) && Major(f.Attempts()))|
    ensures Totals(faults, n).0 + Totals(faults, n).1
      == n.0 + n.1 + |Where(faults, (f: Fault) => Accounted(f.Attempts()))|
  {
    if faults != [] {
      AccountingAddsUp(faults[..|faults| - 1], n);
      AccountedExactly(faults[|faults| - 1]);
    }
  }
}
