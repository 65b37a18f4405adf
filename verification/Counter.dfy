/**
 * Which mapped calls every card undoes. A card that counts its full chunks, and once in a
 * while flips a byte, tells the first encryption of a window from its later ones.
 */
module Counter {
  import opened Types
  import opened Bar
  import opened Windows

  // ----- counting on bytes, the lowest first -----

  function Inc(c: seq<Byte>): (d: seq<Byte>)
    ensures |d| == |c|
  {
    if c == [] then [] else if c[0] == 255 then [0] + Inc(c[1..]) else [c[0] + 1] + c[1..]
  }

  function Dec(c: seq<Byte>): (d: seq<Byte>)
    ensures |d| == |c|
  {
    if c == [] then [] else if c[0] == 0 then [255] + Dec(c[1..]) else [c[0] - 1] + c[1..]
  }

  lemma {:induction false} DecInc(c: seq<Byte>)
    ensures Dec(Inc(c)) == c
  {
    if c != [] {
      DecInc(c[1..]);
      assert Inc(c)[1..] == if c[0] == 255 then Inc(c[1..]) else c[1..];
    }
  }

  lemma {:induction false} IncDec(c: seq<Byte>)
    ensures Inc(Dec(c)) == c
  {
    if c != [] {
      IncDec(c[1..]);
      assert Dec(c)[1..] == if c[0] == 0 then Dec(c[1..]) else c[1..];
    }
  }

  lemma NextByte(b: Byte)
    ensures b == 255 ==> b as nat == 255
    ensures b != 255 ==> (b + 1) as nat == b as nat + 1
  {}

  /** One step of the counter adds one, until it turns over. */
  lemma {:induction false} IncCounts(c: seq<Byte>)
    requires Decode(c) + 1 < Power(|c|)
    ensures Decode(Inc(c)) == Decode(c) + 1
  {
    if c != [] {
      NextByte(c[0]);
      if c[0] == 255 {
        IncCounts(c[1..]);
        assert Inc(c)[1..] == Inc(c[1..]);
      } else {
        assert Inc(c)[1..] == c[1..];
      }
    }
  }

  /** The counter `n` steps after `z`. */
  function After(z: seq<Byte>, n: nat): (c: seq<Byte>)
    ensures |c| == |z|
  {
    if n == 0 then z else Inc(After(z, n - 1))
  }

  lemma {:induction false} AfterCounts(z: seq<Byte>, n: nat)
    requires Decode(z) == 0 && n < Power(|z|)
    ensures Decode(After(z, n)) == n
  {
    if n > 0 {
      AfterCounts(z, n - 1);
      IncCounts(After(z, n - 1));
    }
  }

  // ----- the card -----

  function Flip(b: Byte): Byte { b ^ 1 }

  /** The first byte, and the counter of eight bytes after it. */
  function Chunk(b: Byte, c: seq<Byte>, rest: seq<Byte>): (s: seq<Byte>)
    ensures |s| == 1 + |c| + |rest|
  {
    [b] + c + rest
  }

  /** The first byte changes when the counter turns over. */
  function Turned(b: Byte, c: seq<Byte>): Byte { if Decode(c) == 0 then Flip(b) else b }

  /** A full chunk holds an eight-byte counter; a shorter message has its first byte raised. */
  function Up(s: seq<Byte>): (t: seq<Byte>)
    ensures |t| == |s|
  {
    if s == [] then s
    else if |s| != CHUNK then s[0 := s[0] + 1]
    else Chunk(Turned(s[0], Inc(s[1..9])), Inc(s[1..9]), s[9..])
  }

  function Down(s: seq<Byte>): (t: seq<Byte>)
    ensures |t| == |s|
  {
    if s == [] then s
    else if |s| != CHUNK then s[0 := s[0] - 1]
    else Chunk(Turned(s[0], s[1..9]), Dec(s[1..9]), s[9..])
  }

  const COUNTER := Card((_, s) => Up(s), (_, s) => Down(s), true)

  // ----- it is a good card -----

  lemma ChunkParts(b: Byte, c: seq<Byte>, rest: seq<Byte>)
    requires |c| == 8 && |rest| == CHUNK - 9
    ensures var s := Chunk(b, c, rest); s[0] == b && s[1..9] == c && s[9..] == rest
  {}

  lemma UpChunk(b: Byte, c: seq<Byte>, rest: seq<Byte>)
    requires |c| == 8 && |rest| == CHUNK - 9
    ensures Up(Chunk(b, c, rest)) == Chunk(Turned(b, Inc(c)), Inc(c), rest)
  {
    ChunkParts(b, c, rest);
  }

  lemma DownChunk(b: Byte, c: seq<Byte>, rest: seq<Byte>)
    requires |c| == 8 && |rest| == CHUNK - 9
    ensures Down(Chunk(b, c, rest)) == Chunk(Turned(b, c), Dec(c), rest)
  {
    ChunkParts(b, c, rest);
  }

  lemma TurnedTwice(b: Byte, c: seq<Byte>)
    ensures Turned(Turned(b, c), c) == b
  {}

  lemma DownUpShort(s: seq<Byte>)
    requires |s| != CHUNK
    ensures Down(Up(s)) == s
  {}

  lemma DownUp(s: seq<Byte>)
    ensures Down(Up(s)) == s
  {
    if |s| == CHUNK {
      var b, c, rest := s[0], s[1..9], s[9..];
      DownChunk(Turned(b, Inc(c)), Inc(c), rest);
      DecInc(c);
      TurnedTwice(b, Inc(c));
      assert s == Chunk(b, c, rest);
    } else {
      DownUpShort(s);
    }
  }

  lemma CounterIsGood()
    ensures COUNTER.Good()
  {
    forall key: nat, s: seq<Byte>
      ensures COUNTER.dec(key, COUNTER.enc(key, s)) == s
    {
      DownUp(s);
    }
  }

  // ----- its passes over a window that begins with such a chunk -----

  lemma WinChunk(b: Byte, c: seq<Byte>, rest: seq<Byte>)
    requires |c| == 8 && |rest| == WINDOW - 9
    ensures Take(Chunk(b, c, rest), CHUNK) == Chunk(b, c, rest[..CHUNK - 9])
    ensures Chunk(b, c, rest)[CHUNK..] == rest[CHUNK - 9..]
  {}

  lemma PassOf(isE: bool, b: Byte, c: seq<Byte>, b': Byte, c': seq<Byte>, rest: seq<Byte>)
    requires |c| == |c'| == 8 && |rest| == WINDOW - 9
    requires COUNTER.Cipher(isE, 0, Chunk(b, c, rest[..CHUNK - 9])) == Chunk(b', c', rest[..CHUNK - 9])
    ensures Pass(COUNTER, isE, 0, Chunk(b, c, rest), CHUNK) == Chunk(b', c', rest)
  {
    WinChunk(b, c, rest);
    assert rest[..CHUNK - 9] + rest[CHUNK - 9..] == rest;
  }

  lemma ShortCipher(isE: bool, s: seq<Byte>)
    requires 0 < |s| < CHUNK
    ensures COUNTER.Cipher(isE, 0, s) == s[0 := if isE then s[0] + 1 else s[0] - 1]
  {}

  lemma PassAs(k: Card, isE: bool, w: seq<Byte>, r: nat, b: Byte)
    requires 0 < r <= |w| && k.Cipher(isE, 0, w[..r]) == w[..r][0 := b]
    ensures Pass(k, isE, 0, w, r) == w[0 := b]
  {
    assert Take(w, r) == w[..r] && w[..r][0 := b] + w[r..] == w[0 := b];
  }

  lemma ShortPass(isE: bool, b: Byte, c: seq<Byte>, rest: seq<Byte>, r: nat)
    requires |rest| == WINDOW - 9 && 0 < r < CHUNK
    ensures Pass(COUNTER, isE, 0, Chunk(b, c, rest), r) == Chunk(if isE then b + 1 else b - 1, c, rest)
  {
    var w, b' := Chunk(b, c, rest), if isE then b + 1 else b - 1;
    assert w[..r][0] == b;
    ShortCipher(isE, w[..r]);
    PassAs(COUNTER, isE, w, r, b');
    assert w[0 := b'] == Chunk(b', c, rest);
  }

  /** What the passes do to a window `win(b, c)` with first byte `b` and counter `c`. */
  predicate UpAt(k: Card, win: (Byte, seq<Byte>) -> seq<Byte>, b: Byte, c: seq<Byte>) {
    |c| == 8 ==> Pass(k, true, 0, win(b, c), CHUNK) == win(Turned(b, Inc(c)), Inc(c))
  }

  predicate DownAt(k: Card, win: (Byte, seq<Byte>) -> seq<Byte>, b: Byte, c: seq<Byte>) {
    |c| == 8 ==> Pass(k, false, 0, win(b, c), CHUNK) == win(Turned(b, c), Dec(c))
  }

  predicate BumpsAt(k: Card, win: (Byte, seq<Byte>) -> seq<Byte>, b: Byte, c: seq<Byte>, r: nat) {
    0 < r < CHUNK ==>
      && Pass(k, true, 0, win(b, c), r) == win(b + 1, c)
      && Pass(k, false, 0, win(b, c), r) == win(b - 1, c)
  }

  ghost predicate Counts(k: Card, win: (Byte, seq<Byte>) -> seq<Byte>) {
    && (forall b, c :: UpAt(k, win, b, c))
    && (forall b, c :: DownAt(k, win, b, c))
    && (forall b, c, r :: BumpsAt(k, win, b, c, r))
  }

  function WinOf(rest: seq<Byte>): (Byte, seq<Byte>) -> seq<Byte> {
    (b: Byte, c: seq<Byte>) => Chunk(b, c, rest)
  }

  lemma CounterUpAt(rest: seq<Byte>, b: Byte, c: seq<Byte>)
    requires |rest| == WINDOW - 9
    ensures UpAt(COUNTER, WinOf(rest), b, c)
  {
    if |c| == 8 {
      UpChunk(b, c, rest[..CHUNK - 9]);
      PassOf(true, b, c, Turned(b, Inc(c)), Inc(c), rest);
    }
  }

  lemma CounterDownAt(rest: seq<Byte>, b: Byte, c: seq<Byte>)
    requires |rest| == WINDOW - 9
    ensures DownAt(COUNTER, WinOf(rest), b, c)
  {
    if |c| == 8 {
      DownChunk(b, c, rest[..CHUNK - 9]);
      PassOf(false, b, c, Turned(b, c), Dec(c), rest);
    }
  }

  lemma CounterBumpsAt(rest: seq<Byte>, b: Byte, c: seq<Byte>, r: nat)
    requires |rest| == WINDOW - 9
    ensures BumpsAt(COUNTER, WinOf(rest), b, c, r)
  {
    if 0 < r < CHUNK {
      ShortPass(true, b, c, rest, r);
      ShortPass(false, b, c, rest, r);
    }
  }

  lemma CounterCounts(rest: seq<Byte>)
    requires |rest| == WINDOW - 9
    ensures Counts(COUNTER, WinOf(rest))
  {
    forall b, c { CounterUpAt(rest, b, c); }
    forall b, c { CounterDownAt(rest, b, c); }
    forall b, c, r { CounterBumpsAt(rest, b, c, r); }
  }

  // ----- a window it does not bring back -----

  /** `z` is the counter at zero, and `n` steps do not take it there again. */
  predicate Zero(z: seq<Byte>, n: nat) { |z| == 8 && Decode(z) == 0 && n < Power(8) }

  lemma NotAgain(b: Byte, z: seq<Byte>, n: nat)
    requires Zero(z, n) && n > 0
    ensures Turned(b, After(z, n)) == b
  {
    AfterCounts(z, n);
  }

  lemma StepUp(k: Card, win: (Byte, seq<Byte>) -> seq<Byte>, b: Byte, z: seq<Byte>, n: nat)
    requires Counts(k, win) && Zero(z, n) && n > 0
    ensures Pass(k, true, 0, win(b, After(z, n - 1)), CHUNK) == win(b, After(z, n))
  {
    assert UpAt(k, win, b, After(z, n - 1));
    NotAgain(b, z, n);
  }

  lemma StepDown(k: Card, win: (Byte, seq<Byte>) -> seq<Byte>, b: Byte, z: seq<Byte>, n: nat)
    requires Counts(k, win) && Zero(z, n) && n > 0
    ensures Pass(k, false, 0, win(b, After(z, n)), CHUNK) == win(b, After(z, n - 1))
  {
    assert DownAt(k, win, b, After(z, n));
    NotAgain(b, z, n);
    DecInc(After(z, n - 1));
  }

  lemma TurnUp(k: Card, win: (Byte, seq<Byte>) -> seq<Byte>, b: Byte, z: seq<Byte>)
    requires Counts(k, win) && Zero(z, 0)
    ensures Pass(k, true, 0, win(b, Dec(z)), CHUNK) == win(Flip(b), z)
  {
    assert UpAt(k, win, b, Dec(z));
    IncDec(z);
  }

  lemma TurnDown(k: Card, win: (Byte, seq<Byte>) -> seq<Byte>, b: Byte, z: seq<Byte>)
    requires Counts(k, win) && Zero(z, 0)
    ensures Pass(k, false, 0, win(b, z), CHUNK) == win(Flip(b), Dec(z))
  {
    assert DownAt(k, win, b, z);
  }

  /** The first full chunk turns the counter over; the others only raise it. */
  lemma {:induction false} UpPasses(k: Card, win: (Byte, seq<Byte>) -> seq<Byte>, b: Byte, z: seq<Byte>, n: nat)
    requires Counts(k, win) && Zero(z, n)
    ensures FullPasses(k, true, 0, win(b, Dec(z)), n + 1) == win(Flip(b), After(z, n))
  {
    if n == 0 {
      assert FullPasses(k, true, 0, win(b, Dec(z)), 0) == win(b, Dec(z));
      TurnUp(k, win, b, z);
    } else {
      UpPasses(k, win, b, z, n - 1);
      StepUp(k, win, Flip(b), z, n);
    }
  }

  /** The last chunk turns the counter back over, on a byte that has changed since. */
  lemma {:induction false} DownPasses(k: Card, win: (Byte, seq<Byte>) -> seq<Byte>, b: Byte, z: seq<Byte>, n: nat)
    requires Counts(k, win) && Zero(z, n)
    ensures FullPasses(k, false, 0, win(b, After(z, n)), n + 1) == win(Flip(b), Dec(z))
  {
    if n == 0 {
      assert FullPasses(k, false, 0, win(b, z), 0) == win(b, z);
      TurnDown(k, win, b, z);
    } else {
      StepDown(k, win, b, z, n);
      DownPasses(k, win, b, z, n - 1);
      FullPassesFirst(k, false, 0, win(b, After(z, n)), n);
    }
  }

  lemma {:induction false} ChunksAndRest(k: Card, isE: bool, w: seq<Byte>, n: nat, r: nat)
    requires 0 < r < CHUNK
    ensures Passes(k, isE, 0, w, n * CHUNK + r) == Pass(k, isE, 0, FullPasses(k, isE, 0, w, n), r)
    decreases n
  {
    if n == 0 {
      assert FullPasses(k, isE, 0, w, 0) == w;
    } else {
      assert n * CHUNK + r - CHUNK == (n - 1) * CHUNK + r;
      FirstPass(k, isE, 0, w, n * CHUNK + r);
      ChunksAndRest(k, isE, Pass(k, isE, 0, w, CHUNK), n - 1, r);
      FullPassesFirst(k, isE, 0, w, n - 1);
    }
  }

  lemma Marks()
    ensures Flip(0) + 1 == 2 && Flip(2) - 1 == 2
  {}

  /** `n + 1` full chunks and a shorter rest: a card that counts leaves the window changed. */
  lemma NotUndone(k: Card, win: (Byte, seq<Byte>) -> seq<Byte>, z: seq<Byte>, n: nat, r: nat)
    requires Counts(k, win) && Zero(z, n) && 0 < r < CHUNK
    ensures var w, length := win(0, Dec(z)), (n + 1) * CHUNK + r;
      Passes(k, false, 0, Passes(k, true, 0, w, length), length) == win(2, Dec(z))
  {
    Marks();
    ChunksAndRest(k, true, win(0, Dec(z)), n + 1, r);
    UpPasses(k, win, 0, z, n);
    assert BumpsAt(k, win, Flip(0), After(z, n), r);
    ChunksAndRest(k, false, win(2, After(z, n)), n + 1, r);
    DownPasses(k, win, 2, z, n);
    assert BumpsAt(k, win, Flip(2), Dec(z), r);
  }

  // ----- the exact condition -----

  /** Whatever the card, the key and the window, mapped decryption undoes mapped encryption. */
  ghost predicate AlwaysUndone(length: nat) {
    forall k: Card, key: nat, w: seq<Byte> :: k.Good() && |w| == WINDOW ==>
      Passes(k, false, key, Passes(k, true, key, w, length), length) == w
  }

  lemma Whole(length: nat)
    requires length <= CHUNK || length % CHUNK == 0
    ensures AlwaysUndone(length)
  {
    forall k: Card, key: nat, w: seq<Byte> | k.Good() && |w| == WINDOW
      ensures Passes(k, false, key, Passes(k, true, key, w, length), length) == w
    {
      WholeChunksUndone(k, key, w, length);
    }
  }

  lemma Split(length: nat)
    ensures length == length / CHUNK * CHUNK + length % CHUNK && length % CHUNK < CHUNK
    ensures length > CHUNK ==> length / CHUNK > 0
  {}

  /** A good card that counts, and two windows it can tell apart. */
  lemma Refuted(k: Card, win: (Byte, seq<Byte>) -> seq<Byte>, z: seq<Byte>, length: nat)
    requires k.Good() && Counts(k, win) && Zero(z, length)
    requires |win(0, Dec(z))| == WINDOW && win(0, Dec(z)) != win(2, Dec(z))
    requires CHUNK < length && length % CHUNK != 0
    ensures !AlwaysUndone(length)
  {
    var m, r := length / CHUNK, length % CHUNK;
    Split(length);
    NotUndone(k, win, z, m - 1, r);
    assert length == (m - 1 + 1) * CHUNK + r;
  }

  lemma {:induction false} AllZero(z: seq<Byte>)
    requires forall i :: 0 <= i < |z| ==> z[i] == 0
    ensures Decode(z) == 0
  {
    if z != [] { AllZero(z[1..]); }
  }

  lemma Broken(length: nat)
    requires CHUNK < length < Power(8) && length % CHUNK != 0
    ensures !AlwaysUndone(length)
  {
    var rest: seq<Byte>, z: seq<Byte> := seq(WINDOW - 9, _ => 0), seq(8, _ => 0);
    CounterIsGood();
    CounterCounts(rest);
    AllZero(z);
    assert Chunk(0, Dec(z), rest)[0] != Chunk(2, Dec(z), rest)[0];
    Refuted(COUNTER, WinOf(rest), z, length);
  }

  /** For the library's 64-bit lengths: every good card does exactly if there is one write, or whole chunks only. */
  lemma UndoneExactly(length: nat)
    requires length < 0x1_0000_0000_0000_0000
    ensures AlwaysUndone(length) <==> length <= CHUNK || length % CHUNK == 0
  {
    if length <= CHUNK || length % CHUNK == 0 {
      Whole(length);
    } else {
      Powers();
      Broken(length);
    }
  }
}
