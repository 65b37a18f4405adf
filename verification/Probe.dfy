/** The liveness probe runs outside the semaphore, yet concurrent probes cannot mislead each other. */
module Probe {
  import opened Types
  import opened Machine
  import opened Frames

  /** Whoever is about to read `live` will read the card's answer to the common probe value. */
  ghost predicate ProbeOk(k: Card, s: State) {
    forall t :: 0 <= t < |s.clients| && s.clients[t].pc == Pre(ProbeRead) ==> s.g.dev.live == Answer(k, LIVE_PROBE)
  }

  lemma ProbeStep(k: Card, s: State, e: Event)
    requires ProbeOk(k, s) && Enabled(s, e)
    ensures ProbeOk(k, Next(k, s, e))
  {
    match e
    case Thread(t, ch) => LocalFramed(k, Look(s, t), ch);
    case User(_, _) =>
    case Hardware(c) => assert CardStep(k, s.g, c).dev.live == s.g.dev.live;
    case Irq(i) => assert IrqStep(s, i).g.dev.live == s.g.dev.live;
  }

  lemma {:induction false} ProbeRun(k: Card, tr: seq<State>, ev: seq<Event>, i: nat)
    requires Run(k, tr, ev) && Initial(tr[0]) && i <= |ev|
    ensures ProbeOk(k, tr[i])
  {
    if i > 0 {
      ProbeRun(k, tr, ev, i - 1);
      ProbeStep(k, tr[i - 1], ev[i - 1]);
    }
  }

  lemma Complement(k: Card)
    ensures NotLive(Answer(k, LIVE_PROBE)) <==> !k.alive
  {
    assert (0xffffffff ^ LIVE_PROBE) & LIVE_PROBE == 0;
    assert LIVE_PROBE & LIVE_PROBE != 0;
  }

  /**
   * In every run, with any number of probes under way, the probe finds the card live exactly
   * when it is: the write goes on if so and ends in ERROR if not.
   */
  lemma ProbeVerdict(k: Card, tr: seq<State>, ev: seq<Event>, i: nat, t: nat, ch: Choice)
    requires Run(k, tr, ev) && Initial(tr[0]) && i < |ev| && ev[i] == Thread(t, ch)
    requires t < |tr[i].clients| && tr[i].clients[t].pc == Pre(ProbeRead)
    ensures t < |tr[i + 1].clients|
    ensures tr[i + 1].clients[t].pc == Pre(Alloc) <==> k.alive
    ensures !k.alive ==> tr[i + 1].clients[t].pc == Idle && tr[i + 1].clients[t].l.ret == -1
  {
    ProbeRun(k, tr, ev, i);
    Complement(k);
    assert tr[i + 1] == Next(k, tr[i], ev[i]);
  }
}
