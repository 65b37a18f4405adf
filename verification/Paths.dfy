/** Stretches of runs in which every event is of a given kind. */
module Paths {
  import opened Types
  import opened Machine

  /** `es` takes `s` to `s'`, and every event is good in the state it happens in. */
  ghost predicate Along(k: Card, s: State, es: seq<Event>, s': State, good: (State, Event) -> bool)
    decreases |es|
  {
    if es == [] then s == s'
    else Enabled(s, es[0]) && good(s, es[0]) && Along(k, Next(k, s, es[0]), es[1..], s', good)
  }

  ghost predicate Comes(k: Card, s: State, s': State, good: (State, Event) -> bool) {
    exists es :: Along(k, s, es, s', good)
  }

  lemma Stays(k: Card, s: State, good: (State, Event) -> bool)
    ensures Comes(k, s, s, good)
  {
    assert Along(k, s, [], s, good);
  }

  lemma AlongMore(k: Card, s: State, e: Event, es: seq<Event>, s': State, good: (State, Event) -> bool)
    requires Enabled(s, e) && good(s, e) && Along(k, Next(k, s, e), es, s', good)
    ensures Along(k, s, [e] + es, s', good)
  {
    assert ([e] + es)[1..] == es;
  }

  lemma FirstThen(k: Card, s: State, e: Event, s': State, good: (State, Event) -> bool)
    requires Enabled(s, e) && good(s, e) && Comes(k, Next(k, s, e), s', good)
    ensures Comes(k, s, s', good)
  {
    var es :| Along(k, Next(k, s, e), es, s', good);
    AlongMore(k, s, e, es, s', good);
  }

  lemma OneEvent(k: Card, s: State, e: Event, good: (State, Event) -> bool)
    requires Enabled(s, e) && good(s, e)
    ensures Comes(k, s, Next(k, s, e), good)
  {
    Stays(k, Next(k, s, e), good);
    FirstThen(k, s, e, Next(k, s, e), good);
  }

  lemma {:induction false} AlongThen(k: Card, s: State, es: seq<Event>, m: State, s': State,
                                     good: (State, Event) -> bool)
    requires Along(k, s, es, m, good) && Comes(k, m, s', good)
    ensures Comes(k, s, s', good)
    decreases |es|
  {
    if es != [] {
      AlongThen(k, Next(k, s, es[0]), es[1..], m, s', good);
      FirstThen(k, s, es[0], s', good);
    }
  }

  lemma Then(k: Card, s: State, m: State, s': State, good: (State, Event) -> bool)
    requires Comes(k, s, m, good) && Comes(k, m, s', good)
    ensures Comes(k, s, s', good)
  {
    var es :| Along(k, s, es, m, good);
    AlongThen(k, s, es, m, s', good);
  }

  /** Fewer demands on the events. */
  lemma {:induction false} AlongWider(k: Card, s: State, es: seq<Event>, s': State,
                                      good: (State, Event) -> bool, wider: (State, Event) -> bool)
    requires Along(k, s, es, s', good) && forall x, e :: good(x, e) ==> wider(x, e)
    ensures Along(k, s, es, s', wider)
    decreases |es|
  {
    if es != [] { AlongWider(k, Next(k, s, es[0]), es[1..], s', good, wider); }
  }

  lemma Wider(k: Card, s: State, s': State, good: (State, Event) -> bool, wider: (State, Event) -> bool)
    requires Comes(k, s, s', good) && forall x, e :: good(x, e) ==> wider(x, e)
    ensures Comes(k, s, s', wider)
  {
    var es :| Along(k, s, es, s', good);
    AlongWider(k, s, es, s', good, wider);
  }
}
